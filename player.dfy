/**
 * The bHaptics client (bhaptics/better_haptic_player.py). Its module state,
 * the connection handle `ws` and the sets `active_keys` and
 * `connected_positions`, becomes the fields of one HapticPlayer object;
 * every request written to the connection is appended to `outbox`.
 */
module BetterHapticPlayer {

  import opened Wrappers
  import opened JsonValues
  import opened Protocol

  /**
   * An inbound status frame as read by `json.loads`: each of the two fields
   * as a list of strings, or None when it is missing or cannot be made into
   * a set. A frame that is not JSON at all has no status (None).
   */
  datatype StatusFrame = StatusFrame(activeKeys: Option<seq<string>>, connectedPositions: Option<seq<string>>)

  /** A websocket frame: its text and what that text reads as. */
  datatype RawFrame = RawFrame(data: string, status: Option<StatusFrame>)

  /** Why a call into the client raised instead of returning. */
  datatype Failure =
    | ConnectionClosed          // `ws.send` on a connection that `close` has shut
    | FileNotFound(path: string) // `open(file_directory)` failed or the file is not JSON
    | MissingField(name: string) // `data[name]` raised

  /** How a call into the client ended: it returned, or an exception left it. */
  datatype Outcome = Done | Raised(failure: Failure)

  /** `set(xs)` */
  function SetOf(xs: seq<string>): (s: set<string>)
    ensures forall x :: x in s <==> x in xs
  {
    set x | x in xs
  }

  /**
   * What `register` reads from the pattern file: the file at `path` is
   * looked up in `files` (the files on disk, already parsed), then
   * `data["project"]`, `project["layout"]` and `project["tracks"]`, in that
   * order; the first lookup that fails is the exception raised.
   */
  function ReadProject(files: map<string, Json>, path: string): (r: Result<(Json, Json), Failure>)
    ensures r.Success? <==>
      (path in files && Get(files[path], "project").Some?
       && Get(Get(files[path], "project").value, "layout").Some?
       && Get(Get(files[path], "project").value, "tracks").Some?)
    ensures r.Success? ==> r.value == (Get(Get(files[path], "project").value, "tracks").value,
                                       Get(Get(files[path], "project").value, "layout").value)
    ensures path !in files ==> r == Failure(FileNotFound(path))
  {
    if path !in files then Failure(FileNotFound(path))
    else match Get(files[path], "project")
      case None => Failure(MissingField("project"))
      case Some(project) =>
        match Get(project, "layout")
        case None => Failure(MissingField("layout"))
        case Some(layout) =>
          match Get(project, "tracks")
          case None => Failure(MissingField("tracks"))
          case Some(tracks) => Success((tracks, layout))
  }

  /** The Stop requests for `keys`, one per key, in order. */
  function StopRequests(keys: seq<string>): (r: seq<Request>)
    ensures |r| == |keys|
    ensures forall i :: 0 <= i < |keys| ==> r[i] == Stop(keys[i])
  {
    seq(|keys|, i requires 0 <= i < |keys| => Stop(keys[i]))
  }

  predicate Distinct(xs: seq<string>) {
    forall i, j :: 0 <= i < j < |xs| ==> xs[i] != xs[j]
  }

  /** `list(s)`: the members of a set, each once, in an order the set chooses. */
  method ListOf(s: set<string>) returns (xs: seq<string>)
    ensures |xs| == |s| && Distinct(xs)
    ensures forall x :: x in xs <==> x in s
  {
    xs := [];
    var rest := s;
    while rest != {}
      invariant rest <= s && |xs| + |rest| == |s| && Distinct(xs)
      invariant forall x :: x in xs <==> x in s && x !in rest
      decreases |rest|
    {
      var x :| x in rest;
      xs := xs + [x];
      rest := rest - {x};
    }
  }

  class HapticPlayer {
    /** `ws is not None` */
    var hasHandle: bool
    /** `ws.connected` */
    var connected: bool
    /**
     * Every request written to `ws`, oldest first; request `r` goes on the
     * wire as `json.dumps(RequestJson(r))`.
     */
    var outbox: seq<Request>
    /** `active_keys` */
    var activeKeys: set<string>
    /** `connected_positions` */
    var positions: set<string>

    /** Only an existing connection can be open. */
    ghost predicate Valid()
      reads this
    {
      connected ==> hasHandle
    }

    /** The module as imported: no connection, nothing sent, both sets empty. */
    constructor ()
      ensures Valid()
      ensures !hasHandle && !connected && outbox == [] && activeKeys == {} && positions == {}
    {
      hasHandle, connected, outbox := false, false, [];
      activeKeys, positions := {}, {};
    }

    /** A send is written to the driver. */
    predicate Live()
      reads this
    {
      hasHandle && connected
    }

    /** `is_initialized()` */
    predicate IsInitialized()
      reads this
      ensures IsInitialized() <==> Live()
    {
      hasHandle && connected
    }

    /** `is_playing()`: some pattern is active. */
    predicate IsPlaying()
      reads this
      ensures IsPlaying() <==> exists k :: k in activeKeys
    {
      |activeKeys| > 0
    }

    /** `is_playing_key(key)` */
    predicate IsPlayingKey(key: string)
      reads this
      ensures IsPlayingKey(key) ==> IsPlaying()
    {
      key in activeKeys
    }

    /** `is_device_connected(position)` */
    predicate IsDeviceConnected(position: string)
      reads this
    {
      position in positions
    }

    /**
     * `initialize()`: `create_connection` succeeds (`canConnect`) and
     * replaces the handle with a fresh open connection, or fails and the
     * error is printed, leaving the old handle. The receiver thread is not
     * modelled: frames arrive through RecvFrame.
     */
    method Initialize(canConnect: bool)
      requires Valid()
      modifies this`hasHandle, this`connected
      ensures Valid()
      ensures canConnect ==> Live()
      ensures !canConnect ==> hasHandle == old(hasHandle) && connected == old(connected)
    {
      if canConnect {
        hasHandle, connected := true, true;
      }
    }

    /** `destroy()`: closes the connection if there is one; the handle stays. */
    method Destroy()
      requires Valid()
      modifies this`connected
      ensures Valid() && !connected && !IsInitialized()
    {
      if hasHandle {
        connected := false;
      }
    }

    /**
     * `WebSocketReceiver.recv_frame`: a frame with `ActiveKeys` replaces
     * `active_keys`, and then, if it also has `ConnectedPositions`, replaces
     * `connected_positions`; any failure on the way leaves the rest as it was.
     * The frame itself is returned in every case.
     */
    method RecvFrame(frame: RawFrame) returns (r: RawFrame)
      requires Valid()
      modifies this`activeKeys, this`positions
      ensures Valid() && r == frame
      ensures frame.status.None? || frame.status.value.activeKeys.None? ==>
        activeKeys == old(activeKeys) && positions == old(positions)
      ensures frame.status.Some? && frame.status.value.activeKeys.Some? ==>
        activeKeys == SetOf(frame.status.value.activeKeys.value)
        && positions == match frame.status.value.connectedPositions
                        case Some(ps) => SetOf(ps)
                        case None => old(positions)
    {
      if frame.status.Some? && frame.status.value.activeKeys.Some? {
        activeKeys := SetOf(frame.status.value.activeKeys.value);
        if frame.status.value.connectedPositions.Some? {
          positions := SetOf(frame.status.value.connectedPositions.value);
        }
      }
      r := frame;
    }

    /**
     * `__submit(json.dumps(request))`: written when there is a handle;
     * nothing when `ws` is None; a closed connection raises.
     */
    method Send(request: Request) returns (outcome: Outcome)
      requires Valid()
      modifies this`outbox
      ensures Valid()
      ensures outbox == old(outbox) + (if Live() then [request] else [])
      ensures outcome == if hasHandle && !connected then Raised(ConnectionClosed) else Done
    {
      if hasHandle {
        if connected {
          outbox := outbox + [request];
          outcome := Done;
        } else {
          outcome := Raised(ConnectionClosed);
        }
      } else {
        outcome := Done;
      }
    }

    /**
     * `register(key, file_directory)`: reads the project from the file and
     * sends it under `key`; a file or field that is missing raises before
     * anything is sent.
     */
    method Register(key: string, path: string, files: map<string, Json>) returns (outcome: Outcome)
      requires Valid()
      modifies this`outbox
      ensures Valid()
      ensures ReadProject(files, path).Failure? ==>
        outbox == old(outbox) && outcome == Raised(ReadProject(files, path).error)
      ensures ReadProject(files, path).Success? ==>
        var (tracks, layout) := ReadProject(files, path).value;
        outbox == old(outbox) + (if Live() then [Request.Register(key, tracks, layout)] else [])
        && outcome == if hasHandle && !connected then Raised(ConnectionClosed) else Done
    {
      match ReadProject(files, path)
      case Failure(f) =>
        outcome := Raised(f);
      case Success(project) =>
        outcome := Send(Request.Register(key, project.0, project.1));
    }

    /** `submit_registered(key)` */
    method SubmitRegistered(key: string) returns (outcome: Outcome)
      requires Valid()
      modifies this`outbox
      ensures Valid()
      ensures outbox == old(outbox) + (if Live() then [SubmitKey(key)] else [])
      ensures outcome == if hasHandle && !connected then Raised(ConnectionClosed) else Done
    {
      outcome := Send(SubmitKey(key));
    }

    /** `submit_registered_with_option(key, alt_key, scale_option, rotation_option)` */
    method SubmitRegisteredWithOption(key: string, altKey: string, scaleOption: Json, rotationOption: Json)
      returns (outcome: Outcome)
      requires Valid()
      modifies this`outbox
      ensures Valid()
      ensures outbox == old(outbox)
        + (if Live() then [SubmitWithOption(key, altKey, scaleOption, rotationOption)] else [])
      ensures outcome == if hasHandle && !connected then Raised(ConnectionClosed) else Done
    {
      outcome := Send(SubmitWithOption(key, altKey, scaleOption, rotationOption));
    }

    /** `submit(key, frame)` */
    method Submit(key: string, frame: Json) returns (outcome: Outcome)
      requires Valid()
      modifies this`outbox
      ensures Valid()
      ensures outbox == old(outbox) + (if Live() then [SubmitFrame(key, frame)] else [])
      ensures outcome == if hasHandle && !connected then Raised(ConnectionClosed) else Done
    {
      outcome := Send(SubmitFrame(key, frame));
    }

    /** `submit_dot(key, position, dot_points, duration_millis)` */
    method SubmitDot(key: string, position: string, dotPoints: Json, durationMillis: int)
      returns (outcome: Outcome)
      requires Valid()
      modifies this`outbox
      ensures Valid()
      ensures outbox == old(outbox)
        + (if Live() then [SubmitFrame(key, DotFrame(position, dotPoints, durationMillis))] else [])
      ensures outcome == if hasHandle && !connected then Raised(ConnectionClosed) else Done
    {
      outcome := Submit(key, DotFrame(position, dotPoints, durationMillis));
    }

    /** `submit_path(key, position, path_points, duration_millis)` */
    method SubmitPath(key: string, position: string, pathPoints: Json, durationMillis: int)
      returns (outcome: Outcome)
      requires Valid()
      modifies this`outbox
      ensures Valid()
      ensures outbox == old(outbox)
        + (if Live() then [SubmitFrame(key, PathFrame(position, pathPoints, durationMillis))] else [])
      ensures outcome == if hasHandle && !connected then Raised(ConnectionClosed) else Done
    {
      outcome := Submit(key, PathFrame(position, pathPoints, durationMillis));
    }

    /** `stop_pattern(key)` */
    method StopPattern(key: string) returns (outcome: Outcome)
      requires Valid()
      modifies this`outbox
      ensures Valid()
      ensures outbox == old(outbox) + (if Live() then [Stop(key)] else [])
      ensures outcome == if hasHandle && !connected then Raised(ConnectionClosed) else Done
    {
      outcome := Send(Stop(key));
    }

    /**
     * `stop_all_patterns()`: one Stop for each key active at the call, in
     * the order `list(active_keys)` gives (returned as `order`), then
     * `destroy()`. A closed connection raises at the first Stop, which
     * leaves the function before `destroy`.
     */
    method StopAllPatterns() returns (outcome: Outcome, order: seq<string>)
      requires Valid()
      modifies this`outbox, this`connected
      ensures Valid() && !IsInitialized()
      ensures |order| == |activeKeys| && Distinct(order)
      ensures forall k :: k in order <==> k in activeKeys
      ensures outbox == old(outbox) + (if old(Live()) then StopRequests(order) else [])
      ensures outcome == if hasHandle && !old(connected) && activeKeys != {} then Raised(ConnectionClosed) else Done
    {
      order := ListOf(activeKeys);
      var i := 0;
      while i < |order|
        invariant 0 <= i <= |order|
        invariant Valid() && connected == old(connected)
        invariant outbox == old(outbox) + (if Live() then StopRequests(order[..i]) else [])
        invariant hasHandle && !connected ==> i == 0
      {
        outcome := StopPattern(order[i]);
        if outcome.Raised? {
          assert order[0] in activeKeys;
          return;
        }
        assert order[..i + 1] == order[..i] + [order[i]];
        i := i + 1;
      }
      assert order[..i] == order;
      Destroy();
      outcome := Done;
    }
  }
}
