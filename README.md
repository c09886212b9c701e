# Haptic vest control and Stroop scoring, modelled in Dafny

This project models the haptic-command layer of a breathing and body-location
haptics experiment, and proves properties of that model. The layer has six parts:

- **The bHaptics client** (`bhaptics/better_haptic_player.py`). It keeps one websocket handle and the
  two sets the driver reports: active pattern keys and connected positions.
  - It builds Register, Submit, Stop and frame requests and writes them to the handle.
  - It updates the two sets from status frames.
  - It answers queries from them.
- **Vest addressing** (`haptics_motor_control.py`). `activate_discrete` and `activate_funnelling` validate a
  panel, a motor index or coordinates, an intensity and a duration. On valid input each sends one dot or
  path frame.
- **The grid sequencer** (`array_example.py`). It walks a 5x4 front grid and then a 5x4 back grid in row-major
  order. For every positive cell it calls `activate_discrete`. It also defines the two example patterns.
- **The tact loader** (`haptics_pattern_player.py`). It initialises the client if needed, registers
  `patterns/<file>`, queries five devices and submits the pattern. It returns early when registration raises.
- **The trigger dispatcher** (`remote_trigger_.py`). It matches a stripped chunk against ten trigger names.
- **The Stroop go/no-go scoring** (`stroop.py`). This is the trial state machine that decides which record, if
  any, a key press or a stimulus timeout appends to `results`.

How the source's forms map to Dafny:

- Every request the client writes is appended to the `outbox` field of a `HapticPlayer` object. A request is a
  tagged `Request`, and `RequestJson` gives the dictionary that `json.dumps` would serialise.
- Things the program receives from outside become parameters:
  - status frames arrive already parsed (`RawFrame`);
  - the files `register` reads are a `files` map from path to parsed JSON;
  - whether `create_connection` succeeds is `canConnect`;
  - the Stroop clock reading and random draws are method parameters.
- The module globals of `stroop.py` become the fields of one `StroopTask` object. Three ghost fields count
  trials so that "one record per trial" can be stated.

Where the code and its documentation disagree, the model follows the code:

- `stroop.py` tells the participant to press ENTER, but every key other than `q` counts as a response
  (`RESPONSE_KEY` is never read).
- The docstring of `activate_funnelling` says the point snaps to the nearest motor. The code sends the
  coordinates unchanged.

## Model

| member | source | states |
|---|---|---|
| JsonValues.Get | bhaptics/better_haptic_player.py:92-95 | `data[name]` on parsed JSON: a value exactly when the value is a dict holding `name`, and that value is stored under `name` |
| Text.Lower | haptics_motor_control.py:111 | `panel.lower()`, character by character through LowerChar: ASCII capitals and the Kelvin sign become lower case, every other character is kept |
| Text.LowerIdempotent | haptics_motor_control.py:111 | lowering twice is lowering once |
| Text.LowerFixesLowercase | haptics_motor_control.py:111 | a text with no capitals is its own lower case |
| Text.Strip | remote_trigger_.py:67 | `str.strip`: the result has no whitespace at either end and is the slice of the input between the stripped runs |
| Text.StripKeepsTrimmed | remote_trigger_.py:67 | a text that neither starts nor ends with whitespace strips to itself |
| Text.StripIdempotent | remote_trigger_.py:67 | stripping twice is stripping once |
| Text.NatToString | haptics_motor_control.py:133 | `str(n)` is a non-empty run of decimal digits with no leading zero |
| Text.NatToStringRoundTrip | haptics_motor_control.py:133 | reading the digits of `str(n)` back gives `n` |
| Text.NatToStringInjective | haptics_motor_control.py:133 | different indices give different decimal texts |
| Protocol.PositionValue | bhaptics/better_haptic_player.py:13-25 | each `BhapticsPosition` member's value text; PositionValueRoundTrip proves no two members share one |
| Protocol.RegisterRequest | bhaptics/better_haptic_player.py:97-105 | the Register dictionary of `register`; its layout is pinned by RequestRoundTrip and RequestLayoutExact |
| Protocol.SubmitKeyRequest | bhaptics/better_haptic_player.py:112-118 | the key Submit dictionary of `submit_registered`, pinned by the same two lemmas |
| Protocol.SubmitWithOptionRequest | bhaptics/better_haptic_player.py:130-141 | the Submit dictionary with `Parameters` of `submit_registered_with_option`, pinned by the same two lemmas |
| Protocol.SubmitFrameRequest | bhaptics/better_haptic_player.py:148-155 | the frame Submit dictionary of `submit`, pinned by the same two lemmas |
| Protocol.StopRequest | bhaptics/better_haptic_player.py:185-188 | the Stop dictionary of `stop_pattern`, pinned by the same two lemmas |
| Protocol.DotFrame | bhaptics/better_haptic_player.py:162-166 | the frame `submit_dot` builds; FrameRoundTrip reads it back |
| Protocol.PathFrame | bhaptics/better_haptic_player.py:170-174 | the frame `submit_path` builds; FrameRoundTrip reads it back |
| Protocol.ParseRequest | bhaptics/better_haptic_player.py:86-191 | the reader of the five request layouts, the partner the round-trip lemmas state the builders against |
| Protocol.PositionOf | bhaptics/better_haptic_player.py:13-25 | the position whose enum value a text is, if any, has exactly that value |
| Protocol.PositionValueRoundTrip | bhaptics/better_haptic_player.py:13-25 | each position is found again from its value, so no two positions share a value |
| Protocol.RequestRoundTrip | bhaptics/better_haptic_player.py:86-191 | every request dictionary reads back as the request that built it: register copies tracks and layout, the option submit copies altKey, rotationOption and scaleOption, and stop copies the key |
| Protocol.RequestLayoutExact | bhaptics/better_haptic_player.py:97-191 | anything read as a request is exactly the dictionary of that request: the field layout is fixed |
| Protocol.SubmitLayoutExact | bhaptics/better_haptic_player.py:111-158 | the same for the three Submit layouts (by key, by key with parameters, frame) |
| Protocol.FrameRoundTrip | bhaptics/better_haptic_player.py:161-175 | the dot and path frames carry position, points and `durationMillis` unchanged under `dotPoints` and `pathPoints` |
| Protocol.RequestJsonInjective | bhaptics/better_haptic_player.py:86-191 | two different requests never give the same dictionary |
| BetterHapticPlayer.SetOf | bhaptics/better_haptic_player.py:38-39 | `set(xs)` holds exactly the members of `xs` |
| BetterHapticPlayer.ReadProject | bhaptics/better_haptic_player.py:87-95 | the project read succeeds exactly when the file, `project`, `layout` and `tracks` are all there, and it yields tracks and layout; a missing file is a FileNotFound failure |
| BetterHapticPlayer.StopRequests | bhaptics/better_haptic_player.py:197-198 | one Stop per key, in the order of the keys |
| BetterHapticPlayer.ListOf | bhaptics/better_haptic_player.py:197 | `list(active_keys)` lists every member of the set once and nothing else |
| BetterHapticPlayer.HapticPlayer.constructor | bhaptics/better_haptic_player.py:8-11 | at import: no handle, nothing sent, both sets empty |
| BetterHapticPlayer.HapticPlayer.IsInitialized | bhaptics/better_haptic_player.py:205-206 | `is_initialized()` holds exactly when there is a handle and it is connected |
| BetterHapticPlayer.HapticPlayer.IsPlaying | bhaptics/better_haptic_player.py:73-74 | `is_playing()` holds exactly when some key is active |
| BetterHapticPlayer.HapticPlayer.IsPlayingKey | bhaptics/better_haptic_player.py:77-78 | a playing key means that some pattern is playing |
| BetterHapticPlayer.HapticPlayer.IsDeviceConnected | bhaptics/better_haptic_player.py:82-83 | `is_device_connected(position)`: membership in the connected positions; QueryDevices states each device's answer by it |
| BetterHapticPlayer.HapticPlayer.Initialize | bhaptics/better_haptic_player.py:54-65 | a successful connection leaves the client initialised; a failed one is swallowed and leaves the handle as it was |
| BetterHapticPlayer.HapticPlayer.Destroy | bhaptics/better_haptic_player.py:68-70 | after `destroy()` the client is not initialised |
| BetterHapticPlayer.HapticPlayer.RecvFrame | bhaptics/better_haptic_player.py:28-45 | a frame with both fields replaces both sets; a frame that is not JSON or lacks `ActiveKeys` changes nothing; with `ActiveKeys` but no `ConnectedPositions` only the keys change; the frame is returned in every case |
| BetterHapticPlayer.HapticPlayer.Send | bhaptics/better_haptic_player.py:177-179 | exactly one request is written when the handle is open, none when `ws` is None; a closed handle raises |
| BetterHapticPlayer.HapticPlayer.Register | bhaptics/better_haptic_player.py:86-108 | a project that cannot be read raises before anything is sent; otherwise one Register carrying the file's tracks and layout under `key` |
| BetterHapticPlayer.HapticPlayer.SubmitRegistered | bhaptics/better_haptic_player.py:111-121 | one key-type Submit under `key` |
| BetterHapticPlayer.HapticPlayer.SubmitRegisteredWithOption | bhaptics/better_haptic_player.py:124-144 | one key-type Submit carrying altKey and both options unchanged |
| BetterHapticPlayer.HapticPlayer.Submit | bhaptics/better_haptic_player.py:147-158 | one frame-type Submit under `key` with the frame unchanged |
| BetterHapticPlayer.HapticPlayer.SubmitDot | bhaptics/better_haptic_player.py:161-167 | one frame-type Submit whose frame holds position, `dotPoints` and `durationMillis` unchanged |
| BetterHapticPlayer.HapticPlayer.SubmitPath | bhaptics/better_haptic_player.py:169-175 | the same with `pathPoints` |
| BetterHapticPlayer.HapticPlayer.StopPattern | bhaptics/better_haptic_player.py:181-191 | one `{"Stop":[{"Key":key}]}` |
| BetterHapticPlayer.HapticPlayer.StopAllPatterns | bhaptics/better_haptic_player.py:193-206 | one Stop for each key active at the call, each key once, then the client is not initialised; a closed handle raises at the first Stop |
| MotorControl.IsPanel | haptics_motor_control.py:111 | the panel check: the lowered panel is `front` or `back`; PanelCaseInsensitive proves it ignores case |
| MotorControl.PanelPosition | haptics_motor_control.py:129-130 | VestFront for a panel lowering to `front`, VestBack otherwise |
| MotorControl.DiscreteFrameName | haptics_motor_control.py:133 | `f"{panel}Frame_motor_{motor_index}"`; DiscreteFrameNameInjective proves distinct indices give distinct names |
| MotorControl.DiscreteCommand | haptics_motor_control.py:111-133 | accepted exactly when the lowered panel is front or back, the index is in 0..19, the intensity is in 0..100 and the duration is positive; the first failing check names the rejection (panel, index, intensity, then duration); an accepted command keeps index, intensity and duration, uses VestFront for front and VestBack otherwise, and is keyed by the caller's own panel text |
| MotorControl.FunnelCommand | haptics_motor_control.py:57-79 | the same guards with x and y each in [0.0, 1.0] inclusive, the first failing check naming the rejection (panel, coordinates, intensity, then duration); the coordinates are passed on unchanged |
| MotorControl.ActivateDiscrete | haptics_motor_control.py:93-144 | a refused call sends nothing and returns False; an accepted one sends exactly its dot frame and returns True unless the send raises |
| MotorControl.ActivateFunnelling | haptics_motor_control.py:40-91 | the same with exactly one path frame |
| MotorControl.DiscreteEmission | haptics_motor_control.py:111-138 | what one `activate_discrete` call writes to a live connection: its dot frame when accepted, nothing when refused; ActivateDiscrete's contract is stated with it |
| MotorControl.DotRequestReadBack | haptics_motor_control.py:129-138 | the dot frame on the wire reads back as a frame Submit under the frame name with the single point (index, intensity) and the duration |
| MotorControl.PathRequestReadBack | haptics_motor_control.py:75-85 | the path frame reads back with the single point's x, y and intensity exactly as given |
| MotorControl.PanelCaseInsensitive | haptics_motor_control.py:111-130 | the panel check and the chosen side ignore case |
| MotorControl.UpperCasePanelAccepted | haptics_motor_control.py:111-133 | an example of PanelCaseInsensitive and the frame-name rule: "FRONT" is accepted, addresses VestFront, and is keyed differently from "front" |
| MotorControl.DiscreteFrameNameInjective | haptics_motor_control.py:133 | on one panel, different motor indices give different frame keys |
| ArrayExample.Cells | array_example.py:197-200 | a panel's grid read in row-major order has 20 cells |
| ArrayExample.MotorOfCell | array_example.py:197-200 | cell (row, col) is motor `row*4+col`, which lies in 0..19 |
| ArrayExample.PanelCallsUpTo | array_example.py:197-202 | the reference for one panel's loop: a call per positive cell among the first `n` motors, in motor order; PanelCallsUpToSound and PanelCallsComplete state its meaning |
| ArrayExample.PanelCalls | array_example.py:197-210 | the calls for one whole 5x4 panel |
| ArrayExample.StepCalls | array_example.py:186-210 | the calls of `activate_motor_array`: the front panel's, then the back panel's; StepCallsOrdered states their order |
| ArrayExample.PatternCalls | array_example.py:224-233 | the calls of a whole pattern, step after step; PlayPattern is proved against it |
| ArrayExample.PanelCallsUpToSound | array_example.py:197-202 | every call is for this panel, on a motor whose intensity is positive, with that intensity and the step's duration; motors are called in strictly increasing order |
| ArrayExample.PanelCallsComplete | array_example.py:200-202 | every positive cell gets its call |
| ArrayExample.StepCallsOrdered | array_example.py:196-210 | within a step every front call precedes every back call, and no motor of a panel is called twice |
| ArrayExample.EmissionsAppend | array_example.py:196-210 | the frames of two runs of calls are the frames of the first run followed by those of the second |
| ArrayExample.EmissionsOfAccepted | array_example.py:202 | when every call is accepted, call `i` puts exactly its own dot frame at position `i` |
| ArrayExample.StepCallsAccepted | array_example.py:186-210 | a step with intensities in 0..100 and a positive duration makes only calls that `activate_discrete` accepts |
| ArrayExample.ActivateCell | array_example.py:198-202 | one cell: a call exactly when its intensity is positive, and its frame is sent |
| ArrayExample.ActivatePanel | array_example.py:197-202 | the panel's calls are exactly the row-major positive cells, and their frames are sent in that order |
| ArrayExample.ActivateMotorArray | array_example.py:186-213 | the step's calls are the front panel's and then the back panel's, and the connection receives their frames in that order |
| ArrayExample.PlayStep | array_example.py:224-233 | one pass of the pattern loop appends step `i`'s calls and frames |
| ArrayExample.PlayPattern | array_example.py:224-233 | playing a pattern makes every step's calls in order and sends their frames |
| ArrayExample.BandCalls | array_example.py:197-202 | a panel lit on one band of motors calls exactly those motors, in order |
| ArrayExample.EvenCalls | array_example.py:197-202 | a panel lit on the even motors calls exactly those, in order |
| ArrayExample.RowOnlyCells | array_example.py:26-112 | a grid with only row `i` lit puts its intensity on motors `4i..4i+3` |
| ArrayExample.UniformCells | array_example.py:115-184 | a uniform grid puts its intensity on all twenty motors |
| ArrayExample.EvenColumnsCells | array_example.py:115-184 | a grid lit in columns 0 and 2 lights exactly the even motors |
| ArrayExample.WaveShape | array_example.py:26-112 | wave step `i` lights row `i`: 100 in front and 50 behind |
| ArrayExample.WaveStepCalls | array_example.py:26-112 | each wave step makes exactly 8 calls: 4 front calls at 100 and 4 back calls at 50, all on row `i` |
| ArrayExample.WaveWellFormed | array_example.py:26-112 | every wave grid is 5x4 with intensities in 0..100 |
| ArrayExample.WaveStepCall | array_example.py:26-112 | call `k` of a wave step is found from its offset in that step |
| ArrayExample.WaveCallsUpTo | array_example.py:26-112 | the first `n` wave steps make `8n` calls, call `k` on row `k/8`, front at 100 then back at 50 |
| ArrayExample.WaveCallCount | array_example.py:26-112 | the wave makes 40 calls |
| ArrayExample.AlternatingShape | array_example.py:115-184 | the four alternating steps: all front, all back, front columns 0 and 2, back columns 0 and 2 |
| ArrayExample.UniformPanelCalls | array_example.py:115-184 | a uniform panel calls all twenty motors in order when on and none when off |
| ArrayExample.EvenColumnsPanelCalls | array_example.py:115-184 | an even-columns panel calls motors 0, 2, ..., 18 in order |
| ArrayExample.AlternatingWellFormed | array_example.py:115-184 | every alternating grid is 5x4 with intensities in 0..100 |
| ArrayExample.AlternatingCalls | array_example.py:115-184 | 20 front calls, then 20 back calls, then 10 front calls on columns 0 and 2, then 10 such back calls, all at 100 |
| ArrayExample.PatternCallsAccepted | array_example.py:186-210 | a pattern whose grids stay in 0..100, played at a positive duration, makes only accepted calls |
| ArrayExample.WaveAccepted | array_example.py:26-112 | every wave call at 500 ms passes `activate_discrete`'s checks, so 40 frames go out |
| ArrayExample.AlternatingAccepted | array_example.py:115-184 | every alternating call at 1000 ms passes the checks, so 60 frames go out |
| ArrayExample.WaveEmissionCount | array_example.py:224-233 | 40 calls and 40 frames |
| ArrayExample.AlternatingEmissionCount | array_example.py:243-252 | 60 calls and 60 frames |
| ArrayExample.PlayWave | array_example.py:224-233 | the wave loop at 500 ms makes its 40 calls and, on a live connection, sends 40 frames |
| ArrayExample.ExampleWavePattern | array_example.py:215-235 | after a successful `initialize` the wave sends exactly 40 frames |
| ArrayExample.ExampleAlternatingPattern | array_example.py:237-254 | without initialising, a live connection receives exactly 60 frames |
| HapticsPatternPlayer.TactPath | haptics_pattern_player.py:55 | the path is `patterns/` followed by the file |
| HapticsPatternPlayer.Queries | haptics_pattern_player.py:64-74 | one status query per device of the table, in the table's order |
| HapticsPatternPlayer.RegisterRaises | haptics_pattern_player.py:53-59 | when `register` raises: the project cannot be read or the handle is closed |
| HapticsPatternPlayer.LoaderTrace | haptics_pattern_player.py:43-85 | the loader's calls on the client, in order; LoaderTraceProperties states what they are |
| HapticsPatternPlayer.LoaderTraceProperties | haptics_pattern_player.py:43-85 | every position of the trace: `initialize` first exactly when the client was not initialised; then the registration of `patterns/`+file under the key; then, exactly when registration did not raise, the five device queries in table order and the submit under the same key, last |
| HapticsPatternPlayer.QueryDevices | haptics_pattern_player.py:62-76 | the status checks ask `is_device_connected` for the five devices in order, and send nothing |
| HapticsPatternPlayer.RegisterAndPlay | haptics_pattern_player.py:53-85 | a raising registration sends nothing more; otherwise Register and then Submit under the same key |
| HapticsPatternPlayer.LoadAndPlayTactFile | haptics_pattern_player.py:23-85 | initialises only when not initialised, and a skipped or failed connection leaves the handle as it was; the call trace is the one LoaderTraceProperties describes; the connection receives Register then Submit under the key, or nothing past a failed registration |
| RemoteTrigger.Dispatch | remote_trigger_.py:70-111 | the if/elif chain on the trigger text: a played action's key is the trigger itself, and its wait lies in 4..9 seconds |
| RemoteTrigger.DispatchChunk | remote_trigger_.py:67-111 | a chunk is dispatched by its stripped text: a played action's key is that text |
| RemoteTrigger.ConnectionActions | remote_trigger_.py:61-111 | the actions one connection plays, at most one per chunk, each being the dispatch of its own trigger |
| RemoteTrigger.DispatchMatchesExactlyTheTriggers | remote_trigger_.py:70-111 | a text plays something exactly when it is one of the ten trigger names |
| RemoteTrigger.DispatchKey | remote_trigger_.py:70-109 | the key played is the trigger itself |
| RemoteTrigger.DispatchFile | remote_trigger_.py:70-109 | inhale and exhale play `trigger.tact`; the body locations play `trigger2.tact` |
| RemoteTrigger.DispatchWait | remote_trigger_.py:70-109 | 4 s after inhale; 9 s after abdomens and chests; 8 s after exhale, shoulders and lower backs |
| RemoteTrigger.TriggerNameShape | remote_trigger_.py:70-109 | every trigger name has at least six characters and starts and ends with a lower-case letter |
| RemoteTrigger.TriggerNamedBy | remote_trigger_.py:70-109 | three characters of a trigger name determine it |
| RemoteTrigger.NoTriggerPrefixesAnother | remote_trigger_.py:70-109 | no trigger name is a proper prefix of another |
| RemoteTrigger.TwoTriggersMatchNothing | remote_trigger_.py:67-111 | a chunk holding two triggers, whatever separates them, plays nothing |
| RemoteTrigger.PaddedTrigger | remote_trigger_.py:67-70 | surrounding whitespace is stripped before matching |
| RemoteTrigger.PaddedTriggerless | remote_trigger_.py:67-111 | a chunk of whitespace alone matches nothing |
| RemoteTrigger.EmptyChunkEndsConnection | remote_trigger_.py:61-65 | nothing after the first empty chunk is played on that connection |
| RemoteTrigger.BlankChunkContinues | remote_trigger_.py:62-67 | a whitespace-only chunk is not empty: the loop goes on and plays nothing for it |
| RemoteTrigger.HandleChunk | remote_trigger_.py:67-111 | a chunk is dispatched by its stripped text; a non-trigger changes nothing; a trigger runs the loader with the table's key and file: the client is initialised exactly when it was or can connect, a skipped or failed connection leaves the handle as it was, and the connection receives Register then Submit under the key, or nothing past a raising registration |
| Stroop.ColorOf | stroop.py:16 | each word's colour is one of the six colour values |
| Stroop.ColorOfIsLower | stroop.py:16 | a word's colour is the word in lower case |
| Stroop.ColorsInjective | stroop.py:16 | two words share a colour only when they are the same word |
| Stroop.Without | stroop.py:84 | the filtered list holds exactly the values other than the excluded one |
| Stroop.WithoutOne | stroop.py:84 | filtering one value out of a list without repeats removes exactly one entry |
| Stroop.WithoutAbsent | stroop.py:84 | filtering out a value that is absent keeps the list |
| Stroop.OtherColors | stroop.py:84 | the list `other_colors` a non-match trial draws from; OtherColorsOf states its members and length |
| Stroop.OtherColorsOf | stroop.py:79-85 | a non-match trial draws from exactly five colours, none of them the word's own |
| Stroop.TrialColor | stroop.py:77-85 | the colour a trial shows from its draws; TrialColorMatches states that it is the word's own exactly on a match trial |
| Stroop.TrialColorMatches | stroop.py:77-85 | the colour shown is the word's own exactly on a match trial |
| Stroop.ResponseRecord | stroop.py:135-147 | a response record has response=True and is correct exactly on a match trial |
| Stroop.WithheldRecord | stroop.py:97-116 | a withheld record has response=False; a match trial is scored incorrect and a non-match trial correct |
| Stroop.ResponseAndWithheldDisagree | stroop.py:97-147 | on the same trial, responding and withholding agree on `match` and are scored oppositely |
| Stroop.StroopTask.constructor | stroop.py:27-62 | the initial state: not running, keys bound, blank label, no trial, no results |
| Stroop.StroopTask.EndTask | stroop.py:160-164 | not running, label "Done!", key handler unbound; results unchanged |
| Stroop.StroopTask.ShowNextTrial | stroop.py:65-91 | does nothing when not running; past the task duration it ends the task and keeps every other field, the pending clear included; otherwise it shows `Words[wordChoice]` in the drawn colour, clears the response flag, and the colour matches exactly when `isMatch` |
| Stroop.StroopTask.ShowTrial | stroop.py:75-91 | a new trial: word and colour set, the label shows the word, and no record has been made for it yet |
| Stroop.StroopTask.ClearStimulus | stroop.py:93-116 | blanks the label; appends the withheld record exactly when no response was given; it does not check whether the task runs |
| Stroop.StroopTask.StartTask | stroop.py:149-158 | records the start time, runs, and shows the first trial |
| Stroop.StroopTask.OnKeyPress | stroop.py:118-147 | when not running, only Return (any case) starts the task, with the state StartTask states, and any other key changes nothing; `q` ends a running task and keeps every other field, the response flag included; a key while the label is blank or after this trial's response changes nothing; any other key appends the response record and sets the response flag, keeping the trial's word, colour and pending clear |
| Stroop.StroopTask.KeyEvent | stroop.py:160-177 | after `end_task` unbinds the handler, key events change nothing |
| Stroop.StroopTask.AtMostOneRecordPerTrial | stroop.py:65-147 | in every reachable state there are no more records than trials shown, and the current trial has at most one |
| Stroop.StroopTask.ResultsScored | stroop.py:93-147 | every record's `match` says whether the colour was the word's own, and `correct` is whether responding agreed with matching |

## Left out

- The receive thread and `create_connection` with its socket options. A frame's arrival is an explicit RecvFrame call, and the success of `create_connection` is the `canConnect` parameter.
- The text `json.dumps` writes and the bytes `json.loads` reads. Requests are values of `Request`, and frames arrive already parsed. `print` output is not modelled.
- Send failures other than writing to a closed connection. A broken socket or a timeout raised by the websocket library is not modelled.
- Every `sleep`. The trigger dispatcher returns its wait as a number instead of sleeping.
- The float text in the funnelling frame name. Python's `repr` of the two coordinates is given as the `xText` and `yText` parameters.
- The unused motor coordinate tables in `haptics_motor_control.py`.
- A grid larger than 5x4. The sequencer reads only rows 0..4 and columns 0..3, so it would also accept larger grids; the model's grids (IsGrid) are exactly 5x4, as the example patterns and the docstring have them.
- The interactive console loops of `haptics_motor_control.py` and every `__main__` block.
- The socket server of `remote_trigger_.py`. Only its per-chunk body (HandleChunk) and the end-of-connection rule (ConnectionActions) are modelled, and the byte decoding of a chunk is taken as done.
- `str.lower` is exact only for ASCII capitals and the Kelvin sign; the model keeps every other character. Python lowers other non-ASCII capitals, and can lengthen a string (U+0130 becomes `i` followed by U+0307). No non-ASCII character lowers to one of the compared words (`front`, `back`, `return`, `q`), so every comparison the model makes comes out as Python's.
- The default arguments of `load_and_play_tact_file` (`"Breathing Haptics3"` and `"LMV.tact"`). The model's callers always pass both, as the trigger dispatcher does.
- HapticsPatternPlayer.LoadAndPlayTactFile: the early return after a raising `initialize` is not modelled, because `initialize` catches its own errors and never raises.
- In `stroop.py`, the following are not modelled:
  - the tkinter widgets beyond the label text;
  - the label colours and the instructions frame;
  - `root.destroy`;
  - the CSV file.
- The reaction time is not modelled; it is a float clock difference, and records carry no reaction time.
- `random` becomes the parameters `isMatch`, `wordChoice` and `otherChoice`. The 30% match probability is not modelled.
- `time.time()` becomes the parameter `now`, in seconds. `start_task` reads the clock twice, microseconds apart, and the model takes one reading for both.
- `root.after` scheduling is modelled as ghost bookkeeping in the preconditions:
  - ClearStimulus runs only for a trial that is shown and not yet cleared;
  - while the task runs, the previous clear has already happened when the next trial comes (1000 ms before 1500 ms).
- Stroop.StroopTask.KeyEvent: its contract states only that an unbound handler changes nothing. A bound event is exactly OnKeyPress, whose contract says what it does.
