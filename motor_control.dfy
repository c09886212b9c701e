/**
 * Addressing the two 20-motor panels of the vest (haptics_motor_control.py):
 * `activate_discrete` picks a motor by index, `activate_funnelling` a point
 * by coordinates. Each validates its arguments, in the source's order, and
 * on success sends exactly one frame through the client.
 */
module MotorControl {

  import opened Wrappers
  import opened JsonValues
  import opened Text
  import opened Protocol
  import opened BetterHapticPlayer

  /** Why an activation was refused; the source prints the reason and returns False. */
  datatype Rejection =
    | InvalidPanel
    | MotorIndexOutOfRange
    | CoordinatesOutOfRange
    | IntensityOutOfRange
    | DurationNotPositive

  /** A validated single-motor command: what `player.submit_dot` receives. */
  datatype DotCommand = DotCommand(key: string, position: Position, index: int, intensity: int, durationMs: int)

  /** A validated coordinate command: what `player.submit_path` receives. */
  datatype PathCommand = PathCommand(key: string, position: Position, x: real, y: real, intensity: int, durationMs: int)

  /** `panel.lower() in ['front', 'back']` */
  predicate IsPanel(panel: string) {
    Lower(panel) == "front" || Lower(panel) == "back"
  }

  /** VestFront for a panel that lowers to "front", VestBack for anything else. */
  function PanelPosition(panel: string): Position {
    if Lower(panel) == "front" then VestFront else VestBack
  }

  /** `f"{panel}Frame_motor_{motor_index}"`: the caller's panel text, not its lower case. */
  function DiscreteFrameName(panel: string, index: nat): string {
    panel + "Frame_motor_" + NatToString(index)
  }

  /** `{"index": index, "intensity": intensity}` */
  function DotPointJson(index: int, intensity: int): Json {
    Object(["index", "intensity"], [JInt(index), JInt(intensity)])
  }

  /** `{"x": x, "y": y, "intensity": intensity}` */
  function PathPointJson(x: real, y: real, intensity: int): Json {
    Object(["x", "y", "intensity"], [JReal(x), JReal(y), JInt(intensity)])
  }

  /**
   * The checks of `activate_discrete`, in order: panel, motor index,
   * intensity, duration. The first that fails is the rejection; when all
   * pass, the command carries the caller's values unchanged.
   */
  function DiscreteCommand(panel: string, motorIndex: int, intensity: int, durationMs: int)
    : (r: Result<DotCommand, Rejection>)
    ensures r.Success? <==> IsPanel(panel) && 0 <= motorIndex <= 19 && 0 <= intensity <= 100 && durationMs > 0
    ensures !IsPanel(panel) ==> r == Failure(InvalidPanel)
    ensures IsPanel(panel) && !(0 <= motorIndex <= 19) ==> r == Failure(MotorIndexOutOfRange)
    ensures IsPanel(panel) && 0 <= motorIndex <= 19 && !(0 <= intensity <= 100) ==> r == Failure(IntensityOutOfRange)
    ensures IsPanel(panel) && 0 <= motorIndex <= 19 && 0 <= intensity <= 100 && durationMs <= 0 ==>
      r == Failure(DurationNotPositive)
    ensures r.Success? ==>
      && r.value.index == motorIndex && r.value.intensity == intensity && r.value.durationMs == durationMs
      && r.value.position == (if Lower(panel) == "front" then VestFront else VestBack)
      && r.value.key == DiscreteFrameName(panel, motorIndex)
  {
    if !IsPanel(panel) then Failure(InvalidPanel)
    else if !(0 <= motorIndex <= 19) then Failure(MotorIndexOutOfRange)
    else if !(0 <= intensity <= 100) then Failure(IntensityOutOfRange)
    else if durationMs <= 0 then Failure(DurationNotPositive)
    else Success(DotCommand(DiscreteFrameName(panel, motorIndex), PanelPosition(panel), motorIndex, intensity, durationMs))
  }

  /**
   * The checks of `activate_funnelling`, in order: panel, coordinates,
   * intensity, duration. The frame name is built from Python's text for the
   * two floats, given here as `xText` and `yText`. The coordinates are passed
   * on as they are: no motor is chosen here.
   */
  function FunnelCommand(panel: string, x: real, y: real, intensity: int, durationMs: int, xText: string, yText: string)
    : (r: Result<PathCommand, Rejection>)
    ensures r.Success? <==>
      IsPanel(panel) && 0.0 <= x <= 1.0 && 0.0 <= y <= 1.0 && 0 <= intensity <= 100 && durationMs > 0
    ensures !IsPanel(panel) ==> r == Failure(InvalidPanel)
    ensures IsPanel(panel) && !(0.0 <= x <= 1.0 && 0.0 <= y <= 1.0) ==> r == Failure(CoordinatesOutOfRange)
    ensures IsPanel(panel) && 0.0 <= x <= 1.0 && 0.0 <= y <= 1.0 && !(0 <= intensity <= 100) ==>
      r == Failure(IntensityOutOfRange)
    ensures IsPanel(panel) && 0.0 <= x <= 1.0 && 0.0 <= y <= 1.0 && 0 <= intensity <= 100 && durationMs <= 0 ==>
      r == Failure(DurationNotPositive)
    ensures r.Success? ==>
      && r.value.x == x && r.value.y == y && r.value.intensity == intensity && r.value.durationMs == durationMs
      && r.value.position == (if Lower(panel) == "front" then VestFront else VestBack)
      && r.value.key == panel + "Frame_" + xText + "_" + yText
  {
    if !IsPanel(panel) then Failure(InvalidPanel)
    else if !(0.0 <= x <= 1.0 && 0.0 <= y <= 1.0) then Failure(CoordinatesOutOfRange)
    else if !(0 <= intensity <= 100) then Failure(IntensityOutOfRange)
    else if durationMs <= 0 then Failure(DurationNotPositive)
    else Success(PathCommand(panel + "Frame_" + xText + "_" + yText, PanelPosition(panel), x, y, intensity, durationMs))
  }

  /** The request a valid discrete command puts on the wire. */
  function DotRequest(c: DotCommand): Request {
    SubmitFrame(c.key, DotFrame(PositionValue(c.position), JArr([DotPointJson(c.index, c.intensity)]), c.durationMs))
  }

  /** The request a valid funnelling command puts on the wire. */
  function PathRequest(c: PathCommand): Request {
    SubmitFrame(c.key, PathFrame(PositionValue(c.position), JArr([PathPointJson(c.x, c.y, c.intensity)]), c.durationMs))
  }

  /** What one `activate_discrete` call writes to a live connection: one frame, or nothing when refused. */
  function DiscreteEmission(panel: string, motorIndex: int, intensity: int, durationMs: int): seq<Request> {
    match DiscreteCommand(panel, motorIndex, intensity, durationMs)
    case Success(c) => [DotRequest(c)]
    case Failure(_) => []
  }

  /**
   * `activate_discrete(panel, motor_index, intensity, duration_ms)`. A
   * refused command sends nothing and returns False; a valid one is sent
   * with `submit_dot`, and returns False only when that call raises.
   */
  method ActivateDiscrete(player: HapticPlayer, panel: string, motorIndex: int, intensity: int, durationMs: int)
    returns (ok: bool)
    requires player.Valid()
    modifies player`outbox
    ensures player.Valid()
    ensures player.outbox == old(player.outbox)
      + (if player.Live() then DiscreteEmission(panel, motorIndex, intensity, durationMs) else [])
    ensures ok <==> DiscreteCommand(panel, motorIndex, intensity, durationMs).Success?
                    && !(player.hasHandle && !player.connected)
  {
    match DiscreteCommand(panel, motorIndex, intensity, durationMs)
    case Failure(_) =>
      ok := false;
    case Success(c) =>
      var outcome := player.SubmitDot(c.key, PositionValue(c.position), JArr([DotPointJson(c.index, c.intensity)]), c.durationMs);
      ok := outcome.Done?;
  }

  /**
   * `activate_funnelling(panel, x, y, intensity, duration_ms)`, with the
   * same shape as ActivateDiscrete but a path frame of one point.
   */
  method ActivateFunnelling(player: HapticPlayer, panel: string, x: real, y: real, intensity: int, durationMs: int,
                            xText: string, yText: string)
    returns (ok: bool)
    requires player.Valid()
    modifies player`outbox
    ensures player.Valid()
    ensures player.outbox == old(player.outbox)
      + (match FunnelCommand(panel, x, y, intensity, durationMs, xText, yText)
         case Success(c) => if player.Live() then [PathRequest(c)] else []
         case Failure(_) => [])
    ensures ok <==> FunnelCommand(panel, x, y, intensity, durationMs, xText, yText).Success?
                    && !(player.hasHandle && !player.connected)
  {
    match FunnelCommand(panel, x, y, intensity, durationMs, xText, yText)
    case Failure(_) =>
      ok := false;
    case Success(c) =>
      var outcome := player.SubmitPath(c.key, PositionValue(c.position), JArr([PathPointJson(c.x, c.y, c.intensity)]), c.durationMs);
      ok := outcome.Done?;
  }

  // ---------------------------------------------------------------------
  // What the commands mean once they are on the wire.
  // ---------------------------------------------------------------------

  /**
   * A discrete request read back: a frame-type Submit under the frame name,
   * on the panel's vest side, with the single dot (index, intensity) and the
   * duration, all unchanged.
   */
  lemma DotRequestReadBack(c: DotCommand)
    ensures ParseRequest(RequestJson(DotRequest(c))) == Some(SubmitFrame(c.key,
      DotFrame(PositionValue(c.position), JArr([DotPointJson(c.index, c.intensity)]), c.durationMs)))
    ensures ParseFrame(DotFrame(PositionValue(c.position), JArr([DotPointJson(c.index, c.intensity)]), c.durationMs))
      == Some(Dots(PositionValue(c.position), JArr([DotPointJson(c.index, c.intensity)]), c.durationMs))
    ensures Fields(DotPointJson(c.index, c.intensity), ["index", "intensity"]) == Some([JInt(c.index), JInt(c.intensity)])
  {
    var frame := DotFrame(PositionValue(c.position), JArr([DotPointJson(c.index, c.intensity)]), c.durationMs);
    RequestRoundTrip(SubmitFrame(c.key, frame));
    FrameRoundTrip(Dots(PositionValue(c.position), JArr([DotPointJson(c.index, c.intensity)]), c.durationMs));
  }

  /** A funnelling request read back: the single point's x and y are exactly the caller's. */
  lemma PathRequestReadBack(c: PathCommand)
    ensures ParseRequest(RequestJson(PathRequest(c))) == Some(SubmitFrame(c.key,
      PathFrame(PositionValue(c.position), JArr([PathPointJson(c.x, c.y, c.intensity)]), c.durationMs)))
    ensures ParseFrame(PathFrame(PositionValue(c.position), JArr([PathPointJson(c.x, c.y, c.intensity)]), c.durationMs))
      == Some(Paths(PositionValue(c.position), JArr([PathPointJson(c.x, c.y, c.intensity)]), c.durationMs))
    ensures Fields(PathPointJson(c.x, c.y, c.intensity), ["x", "y", "intensity"])
      == Some([JReal(c.x), JReal(c.y), JInt(c.intensity)])
  {
    var frame := PathFrame(PositionValue(c.position), JArr([PathPointJson(c.x, c.y, c.intensity)]), c.durationMs);
    RequestRoundTrip(SubmitFrame(c.key, frame));
    FrameRoundTrip(Paths(PositionValue(c.position), JArr([PathPointJson(c.x, c.y, c.intensity)]), c.durationMs));
  }

  /**
   * The panel check ignores case and the panel's side follows the lower
   * case, but the frame name keeps the caller's spelling: "FRONT" and
   * "front" address the same motor under different keys.
   */
  lemma PanelCaseInsensitive(panel: string)
    ensures IsPanel(panel) <==> IsPanel(Lower(panel))
    ensures PanelPosition(panel) == PanelPosition(Lower(panel))
  {
    LowerIdempotent(panel);
  }

  lemma {:induction false} UpperCasePanelAccepted(index: int, intensity: int, durationMs: int)
    requires 0 <= index <= 19 && 0 <= intensity <= 100 && durationMs > 0
    ensures DiscreteCommand("FRONT", index, intensity, durationMs).Success?
    ensures DiscreteCommand("FRONT", index, intensity, durationMs).value.position == VestFront
    ensures DiscreteCommand("FRONT", index, intensity, durationMs).value.key
         != DiscreteCommand("front", index, intensity, durationMs).value.key
  {
    assert Lower("FRONT") == "front";
    assert Lower("front") == "front";
    assert DiscreteFrameName("FRONT", index)[0] != DiscreteFrameName("front", index)[0];
  }

  /** The frame name tells the motors of one panel apart: different indices, different keys. */
  lemma {:induction false} DiscreteFrameNameInjective(panel: string, i: nat, j: nat)
    requires DiscreteFrameName(panel, i) == DiscreteFrameName(panel, j)
    ensures i == j
  {
    var prefix := panel + "Frame_motor_";
    assert NatToString(i) == DiscreteFrameName(panel, i)[|prefix|..];
    assert NatToString(j) == DiscreteFrameName(panel, j)[|prefix|..];
    NatToStringInjective(i, j);
  }
}
