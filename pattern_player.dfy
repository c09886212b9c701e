/**
 * The tact loader (haptics_pattern_player.py): `load_and_play_tact_file`
 * initialises the client when it is not yet initialised, registers the tact
 * file under its key, queries five device positions and submits the
 * registered pattern, returning early when registration raises.
 *
 * The file system is the `files` map handed to `register`; whether
 * `create_connection` succeeds is `canConnect`. The calls the function makes
 * on the client are returned as a trace, in order.
 */
module HapticsPatternPlayer {

  import opened Wrappers
  import opened JsonValues
  import opened Protocol
  import opened BetterHapticPlayer

  /** One call on the client module, as made by the loader. */
  datatype PlayerCall =
    | InitializeCall
    | RegisterCall(key: string, path: string)
    | QueryCall(position: string)
    | SubmitRegisteredCall(key: string)

  /** The devices the loader reports on, in the order of its status table. */
  const QueriedDevices: seq<Position> := [Vest, ForearmL, ForearmR, GloveL, GloveR]

  /** The path `register` is given: the tact file under `patterns/`. */
  function TactPath(tactFile: string): (path: string)
    ensures |path| == |tactFile| + 9 && path[..9] == "patterns/" && path[9..] == tactFile
  {
    "patterns/" + tactFile
  }

  /** The five status queries, one per device of the table, in order. */
  function Queries(): (r: seq<PlayerCall>)
    ensures |r| == |QueriedDevices|
    ensures forall i :: 0 <= i < |r| ==> r[i] == QueryCall(PositionValue(QueriedDevices[i]))
  {
    seq(|QueriedDevices|, i requires 0 <= i < |QueriedDevices| => QueryCall(PositionValue(QueriedDevices[i])))
  }

  /** `register` raises: the project cannot be read, or the connection is closed. */
  predicate RegisterRaises(player: HapticPlayer, files: map<string, Json>, tactFile: string)
    reads player
  {
    ReadProject(files, TactPath(tactFile)).Failure? || (player.hasHandle && !player.connected)
  }

  /**
   * The calls the loader makes: `initialize` when the client was not
   * initialised, `register`, and then, unless `register` raised, the five
   * queries and `submit_registered`.
   */
  function LoaderTrace(wasInitialized: bool, raised: bool, tactKey: string, tactFile: string): seq<PlayerCall> {
    (if wasInitialized then [] else [InitializeCall])
    + [RegisterCall(tactKey, TactPath(tactFile))]
    + (if raised then [] else Queries() + [SubmitRegisteredCall(tactKey)])
  }

  /**
   * What the trace promises, position by position: `initialize` exactly
   * when the client was not initialised, and then first; next the one
   * registration, of `patterns/` plus the file, under the key; and, exactly
   * when registration did not raise, the five device queries in table order
   * followed by the submit under the same key, last.
   */
  lemma LoaderTraceProperties(wasInitialized: bool, raised: bool, tactKey: string, tactFile: string)
    ensures var t := LoaderTrace(wasInitialized, raised, tactKey, tactFile);
      var p := if wasInitialized then 0 else 1;
      && |t| == p + 1 + (if raised then 0 else |QueriedDevices| + 1)
      && ((InitializeCall in t) <==> !wasInitialized)
      && (!wasInitialized ==> t[0] == InitializeCall)
      && t[p] == RegisterCall(tactKey, "patterns/" + tactFile)
      && (forall i :: p + 1 <= i < p + 1 + (if raised then 0 else |QueriedDevices|) ==>
            t[i] == QueryCall(PositionValue(QueriedDevices[i - p - 1])))
      && (!raised ==> t[|t| - 1] == SubmitRegisteredCall(tactKey))
      && ((exists i :: 0 <= i < |t| && t[i].SubmitRegisteredCall?) <==> !raised)
  {
    var t := LoaderTrace(wasInitialized, raised, tactKey, tactFile);
    var pre := if wasInitialized then [] else [InitializeCall];
    var tail := if raised then [] else Queries() + [SubmitRegisteredCall(tactKey)];
    assert t == pre + [RegisterCall(tactKey, TactPath(tactFile))] + tail;
    forall i | 0 <= i < |t|
      ensures t[i] == if i < |pre| then pre[i] else if i == |pre| then RegisterCall(tactKey, TactPath(tactFile))
                      else tail[i - |pre| - 1]
    {
    }
    if !raised {
      assert t[|t| - 1].SubmitRegisteredCall?;
    }
  }

  /**
   * The status loop of the loader: `is_device_connected` for each device of
   * the table, in order. It sends nothing and changes nothing.
   */
  method QueryDevices(player: HapticPlayer) returns (calls: seq<PlayerCall>, statuses: seq<bool>)
    ensures calls == Queries()
    ensures |statuses| == |QueriedDevices|
    ensures forall i :: 0 <= i < |statuses| ==> statuses[i] == player.IsDeviceConnected(PositionValue(QueriedDevices[i]))
  {
    calls, statuses := [], [];
    for i := 0 to |QueriedDevices|
      invariant |statuses| == i
      invariant forall j :: 0 <= j < i ==> statuses[j] == player.IsDeviceConnected(PositionValue(QueriedDevices[j]))
      invariant calls == Queries()[..i]
    {
      var position := PositionValue(QueriedDevices[i]);
      calls := calls + [QueryCall(position)];
      statuses := statuses + [player.IsDeviceConnected(position)];
    }
  }

  /**
   * The part of the loader after initialisation: register, and unless that
   * raises, query the devices and submit under the same key.
   */
  method RegisterAndPlay(player: HapticPlayer, tactKey: string, tactFile: string, files: map<string, Json>)
    returns (trace: seq<PlayerCall>, statuses: seq<bool>)
    requires player.Valid()
    modifies player`outbox
    ensures player.Valid()
    ensures trace == LoaderTrace(true, RegisterRaises(player, files, tactFile), tactKey, tactFile)
    ensures RegisterRaises(player, files, tactFile) ==> player.outbox == old(player.outbox)
    ensures !RegisterRaises(player, files, tactFile) ==>
      var (tracks, layout) := ReadProject(files, TactPath(tactFile)).value;
      player.outbox == old(player.outbox)
        + (if player.Live() then [Request.Register(tactKey, tracks, layout), SubmitKey(tactKey)] else [])
    ensures |statuses| == if RegisterRaises(player, files, tactFile) then 0 else |QueriedDevices|
    ensures forall i :: 0 <= i < |statuses| ==> statuses[i] == player.IsDeviceConnected(PositionValue(QueriedDevices[i]))
  {
    statuses := [];
    var path := TactPath(tactFile);
    trace := [RegisterCall(tactKey, path)];
    var registered := player.Register(tactKey, path, files);
    if registered.Raised? {
      return;
    }

    var queries;
    queries, statuses := QueryDevices(player);
    trace := trace + (queries + [SubmitRegisteredCall(tactKey)]);
    var _ := player.SubmitRegistered(tactKey);
  }

  /**
   * `load_and_play_tact_file(tact_key, tact_file)`.
   *
   * `initialize` is called only when the client is not initialised; it
   * catches its own errors, so the early return after a failed
   * initialisation cannot happen. A registration that raises ends the
   * function before any query or submit. Otherwise the five devices are
   * queried, which sends nothing and changes nothing, and the pattern is
   * submitted under the same key. `statuses` holds the five answers.
   * The source's defaults, `tact_key="Breathing Haptics3"` and
   * `tact_file="LMV.tact"`, are not modelled: callers pass both.
   */
  method LoadAndPlayTactFile(player: HapticPlayer, tactKey: string, tactFile: string,
                             canConnect: bool, files: map<string, Json>)
    returns (trace: seq<PlayerCall>, statuses: seq<bool>)
    requires player.Valid()
    modifies player`hasHandle, player`connected, player`outbox
    ensures player.Valid()
    ensures player.IsInitialized() <==> old(player.IsInitialized()) || canConnect
    ensures old(player.IsInitialized()) || !canConnect ==>
      player.hasHandle == old(player.hasHandle) && player.connected == old(player.connected)
    ensures trace == LoaderTrace(old(player.IsInitialized()), RegisterRaises(player, files, tactFile), tactKey, tactFile)
    ensures RegisterRaises(player, files, tactFile) ==> player.outbox == old(player.outbox)
    ensures !RegisterRaises(player, files, tactFile) ==>
      var (tracks, layout) := ReadProject(files, TactPath(tactFile)).value;
      player.outbox == old(player.outbox)
        + (if player.Live() then [Request.Register(tactKey, tracks, layout), SubmitKey(tactKey)] else [])
    ensures |statuses| == if RegisterRaises(player, files, tactFile) then 0 else |QueriedDevices|
    ensures forall i :: 0 <= i < |statuses| ==> statuses[i] == player.IsDeviceConnected(PositionValue(QueriedDevices[i]))
  {
    var initTrace := [];
    if !player.IsInitialized() {
      initTrace := [InitializeCall];
      player.Initialize(canConnect);
    }
    var rest;
    rest, statuses := RegisterAndPlay(player, tactKey, tactFile, files);
    trace := initTrace + rest;
  }
}
