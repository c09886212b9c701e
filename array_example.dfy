/**
 * The grid sequencer (array_example.py): a pattern step holds one 5x4
 * intensity grid per vest panel; `activate_motor_array` walks the front grid
 * and then the back grid in row-major order and calls `activate_discrete`
 * for every cell with a positive intensity, cell (row, col) being motor
 * `row * 4 + col`. The two example patterns are the source's constants.
 */
module ArrayExample {

  import opened Wrappers
  import opened JsonValues
  import opened BetterHapticPlayer
  import opened Protocol
  import opened MotorControl

  /** A panel's intensities, row by row: 5 rows of 4 columns when well formed. */
  type Grid = seq<seq<int>>

  predicate IsGrid(g: Grid) {
    |g| == 5 && forall r :: 0 <= r < 5 ==> |g[r]| == 4
  }

  /** One pattern step: `{"front": grid, "back": grid}`. */
  datatype PatternStep = PatternStep(front: Grid, back: Grid)

  predicate IsStep(s: PatternStep) {
    IsGrid(s.front) && IsGrid(s.back)
  }

  /** One `activate_discrete(panel, motor_idx, intensity, duration_ms)` call. */
  datatype Call = Call(panel: string, index: int, intensity: int, durationMs: int)

  /** The panel's intensities by motor index: row 0, then row 1, and so on. */
  function Cells(g: Grid): (cells: seq<int>)
    requires IsGrid(g)
    ensures |cells| == 20
  {
    g[0] + g[1] + g[2] + g[3] + g[4]
  }

  /** Cell (row, col) is motor `row * 4 + col`; distinct cells are distinct motors. */
  lemma {:induction false} MotorOfCell(g: Grid, row: int, col: int)
    requires IsGrid(g) && 0 <= row < 5 && 0 <= col < 4
    ensures 0 <= row * 4 + col < 20
    ensures Cells(g)[row * 4 + col] == g[row][col]
  {
    var cells := Cells(g);
    if row == 0 { assert cells[col] == g[0][col]; }
    else if row == 1 { assert cells[4 + col] == g[1][col]; }
    else if row == 2 { assert cells[8 + col] == g[2][col]; }
    else if row == 3 { assert cells[12 + col] == g[3][col]; }
    else { assert cells[16 + col] == g[4][col]; }
  }

  /**
   * The calls the sequencer makes for the first `n` motors of one panel:
   * one per positive cell, each with that cell's motor index and intensity
   * and the step's duration, in increasing motor order.
   */
  function PanelCallsUpTo(panel: string, cells: seq<int>, d: int, n: nat): seq<Call>
    requires n <= |cells|
  {
    if n == 0 then []
    else
      PanelCallsUpTo(panel, cells, d, n - 1)
      + (if cells[n - 1] > 0 then [Call(panel, n - 1, cells[n - 1], d)] else [])
  }

  /**
   * Every call made for the first `n` motors is for this panel, a motor
   * below `n` whose intensity is positive, with that intensity and the
   * step's duration; motors are called in increasing order.
   */
  lemma {:induction false} PanelCallsUpToSound(panel: string, cells: seq<int>, d: int, n: nat)
    requires n <= |cells|
    ensures var r := PanelCallsUpTo(panel, cells, d, n);
      && |r| <= n
      && (forall i :: 0 <= i < |r| ==>
           && r[i].panel == panel && 0 <= r[i].index < n && r[i].durationMs == d
           && r[i].intensity == cells[r[i].index] && r[i].intensity > 0)
      && (forall i, j :: 0 <= i < j < |r| ==> r[i].index < r[j].index)
  {
    if n > 0 {
      PanelCallsUpToSound(panel, cells, d, n - 1);
    }
  }

  /** The calls for a whole panel. */
  function PanelCalls(panel: string, g: Grid, d: int): seq<Call>
    requires IsGrid(g)
  {
    PanelCallsUpTo(panel, Cells(g), d, 20)
  }

  /** The calls of one `activate_motor_array(step, duration_ms)`: the front panel's, then the back panel's. */
  function StepCalls(s: PatternStep, d: int): seq<Call>
    requires IsStep(s)
  {
    PanelCalls("front", s.front, d) + PanelCalls("back", s.back, d)
  }

  /** The calls of the first `n` steps of a pattern, step after step. */
  function PatternCallsUpTo(steps: seq<PatternStep>, d: int, n: nat): seq<Call>
    requires n <= |steps| && forall i :: 0 <= i < |steps| ==> IsStep(steps[i])
  {
    if n == 0 then [] else PatternCallsUpTo(steps, d, n - 1) + StepCalls(steps[n - 1], d)
  }

  /** The calls of a whole pattern. */
  function PatternCalls(steps: seq<PatternStep>, d: int): seq<Call>
    requires forall i :: 0 <= i < |steps| ==> IsStep(steps[i])
  {
    PatternCallsUpTo(steps, d, |steps|)
  }

  /** Every positive cell gets its call: none is skipped. */
  lemma {:induction false} PanelCallsComplete(panel: string, cells: seq<int>, d: int, n: nat, k: int)
    requires n <= |cells| && 0 <= k < n && cells[k] > 0
    ensures Call(panel, k, cells[k], d) in PanelCallsUpTo(panel, cells, d, n)
  {
    if k < n - 1 {
      PanelCallsComplete(panel, cells, d, n - 1, k);
    }
  }

  /**
   * Within a step every front call comes before every back call, and each
   * motor of a panel is called at most once.
   */
  lemma StepCallsOrdered(s: PatternStep, d: int)
    requires IsStep(s)
    ensures forall i, j :: 0 <= i < j < |StepCalls(s, d)| && StepCalls(s, d)[j].panel == "front" ==>
      StepCalls(s, d)[i].panel == "front"
    ensures forall i, j :: 0 <= i < j < |StepCalls(s, d)| && StepCalls(s, d)[i].panel == StepCalls(s, d)[j].panel ==>
      StepCalls(s, d)[i].index < StepCalls(s, d)[j].index
  {
    var f, b := PanelCalls("front", s.front, d), PanelCalls("back", s.back, d);
    PanelCallsUpToSound("front", Cells(s.front), d, 20);
    PanelCallsUpToSound("back", Cells(s.back), d, 20);
    assert StepCalls(s, d) == f + b;
    assert forall i :: |f| <= i < |f| + |b| ==> (f + b)[i] == b[i - |f|];
  }

  // ---------------------------------------------------------------------
  // What the calls put on the wire.
  // ---------------------------------------------------------------------

  /** The requests a sequence of calls writes to a live connection, in order. */
  function Emissions(calls: seq<Call>): seq<Request> {
    if calls == [] then []
    else
      var c := calls[|calls| - 1];
      Emissions(calls[..|calls| - 1]) + DiscreteEmission(c.panel, c.index, c.intensity, c.durationMs)
  }

  lemma {:induction false} EmissionsAppend(a: seq<Call>, b: seq<Call>)
    ensures Emissions(a + b) == Emissions(a) + Emissions(b)
  {
    if b != [] {
      assert (a + b)[..|a + b| - 1] == a + b[..|b| - 1];
      EmissionsAppend(a, b[..|b| - 1]);
    } else {
      assert a + b == a;
    }
  }

  /** What a connection holds after two runs of calls, live or not. */
  lemma SentAppend(sent: seq<Request>, live: bool, a: seq<Call>, b: seq<Call>)
    ensures sent + (if live then Emissions(a) else []) + (if live then Emissions(b) else [])
         == sent + (if live then Emissions(a + b) else [])
  {
    EmissionsAppend(a, b);
  }

  /** What a connection holds after a run of calls and then one more. */
  lemma SentSnoc(sent: seq<Request>, live: bool, calls: seq<Call>, c: Call)
    ensures sent + (if live then Emissions(calls) else [])
           + (if live then DiscreteEmission(c.panel, c.index, c.intensity, c.durationMs) else [])
         == sent + (if live then Emissions(calls + [c]) else [])
  {
    assert (calls + [c])[..|calls|] == calls;
  }

  /** A call that `activate_discrete` accepts. */
  predicate Accepted(c: Call) {
    DiscreteCommand(c.panel, c.index, c.intensity, c.durationMs).Success?
  }

  /** When every call is accepted, each call writes exactly its own dot frame, in call order. */
  lemma {:induction false} EmissionsOfAccepted(calls: seq<Call>)
    requires forall i :: 0 <= i < |calls| ==> Accepted(calls[i])
    ensures |Emissions(calls)| == |calls|
    ensures forall i :: 0 <= i < |calls| ==>
      Accepted(calls[i]) && Emissions(calls)[i] == DotRequest(DiscreteCommand(calls[i].panel, calls[i].index, calls[i].intensity, calls[i].durationMs).value)
  {
    if calls != [] {
      var init := calls[..|calls| - 1];
      EmissionsOfAccepted(init);
    }
  }

  /** Intensities a panel can take: 0 to 100. */
  predicate InRange(g: Grid)
    requires IsGrid(g)
  {
    forall k :: 0 <= k < 20 ==> 0 <= Cells(g)[k] <= 100
  }

  /**
   * A step whose grids stay within 0..100, played with a positive duration,
   * makes only calls that `activate_discrete` accepts.
   */
  lemma StepCallsAccepted(s: PatternStep, d: int)
    requires IsStep(s) && InRange(s.front) && InRange(s.back) && d > 0
    ensures forall i :: 0 <= i < |StepCalls(s, d)| ==> Accepted(StepCalls(s, d)[i])
  {
    var f, b := PanelCalls("front", s.front, d), PanelCalls("back", s.back, d);
    PanelCallsUpToSound("front", Cells(s.front), d, 20);
    PanelCallsUpToSound("back", Cells(s.back), d, 20);
    assert Text.Lower("front") == "front" && Text.Lower("back") == "back";
    assert forall i :: |f| <= i < |f| + |b| ==> (f + b)[i] == b[i - |f|];
  }

  // ---------------------------------------------------------------------
  // The sequencer itself.
  // ---------------------------------------------------------------------

  /**
   * The body of the inner loop of `activate_motor_array`: cell (row, col) is
   * motor `row * 4 + col`, and a positive intensity there is one
   * `activate_discrete` call, whose result is ignored as in the source.
   * `sent` is what the connection held before this panel began.
   */
  method ActivateCell(player: HapticPlayer, panel: string, g: Grid, row: int, col: int, durationMs: int,
                      calls: seq<Call>, ghost sent: seq<Request>) returns (calls': seq<Call>)
    requires player.Valid() && IsGrid(g) && 0 <= row < 5 && 0 <= col < 4
    requires calls == PanelCallsUpTo(panel, Cells(g), durationMs, row * 4 + col)
    requires player.outbox == sent + (if player.Live() then Emissions(calls) else [])
    modifies player`outbox
    ensures player.Valid()
    ensures calls' == PanelCallsUpTo(panel, Cells(g), durationMs, row * 4 + col + 1)
    ensures player.outbox == sent + (if player.Live() then Emissions(calls') else [])
  {
    var motorIdx := row * 4 + col;
    var intensity := g[row][col];
    MotorOfCell(g, row, col);
    if intensity > 0 {
      var _ := ActivateDiscrete(player, panel, motorIdx, intensity, durationMs);
      SentSnoc(sent, player.Live(), calls, Call(panel, motorIdx, intensity, durationMs));
      calls' := calls + [Call(panel, motorIdx, intensity, durationMs)];
    } else {
      calls' := calls;
    }
  }

  /**
   * One panel's half of `activate_motor_array`: for row in range(5), for col
   * in range(4), the cell's step.
   */
  method ActivatePanel(player: HapticPlayer, panel: string, g: Grid, durationMs: int) returns (calls: seq<Call>)
    requires player.Valid() && IsGrid(g)
    modifies player`outbox
    ensures player.Valid()
    ensures calls == PanelCalls(panel, g, durationMs)
    ensures player.outbox == old(player.outbox) + (if player.Live() then Emissions(calls) else [])
  {
    calls := [];
    ghost var sent := player.outbox;
    for row := 0 to 5
      invariant player.Valid()
      invariant calls == PanelCallsUpTo(panel, Cells(g), durationMs, row * 4)
      invariant player.outbox == sent + (if player.Live() then Emissions(calls) else [])
    {
      for col := 0 to 4
        invariant player.Valid()
        invariant calls == PanelCallsUpTo(panel, Cells(g), durationMs, row * 4 + col)
        invariant player.outbox == sent + (if player.Live() then Emissions(calls) else [])
      {
        calls := ActivateCell(player, panel, g, row, col, durationMs, calls, sent);
      }
      assert row * 4 + 4 == (row + 1) * 4;
    }
  }

  /**
   * `activate_motor_array(pattern_step, duration_ms)`: the front panel, then
   * the back panel. The closing `sleep` is not modelled.
   */
  method ActivateMotorArray(player: HapticPlayer, step: PatternStep, durationMs: int) returns (calls: seq<Call>)
    requires player.Valid() && IsStep(step)
    modifies player`outbox
    ensures player.Valid()
    ensures calls == StepCalls(step, durationMs)
    ensures player.outbox == old(player.outbox) + (if player.Live() then Emissions(calls) else [])
  {
    ghost var sent := player.outbox;
    var front := ActivatePanel(player, "front", step.front, durationMs);
    var back := ActivatePanel(player, "back", step.back, durationMs);
    calls := front + back;
    SentAppend(sent, player.Live(), front, back);
  }

  /**
   * The body of the pattern loop: step `i` after the steps before it.
   * `sent` is what the connection held before the pattern began.
   */
  method PlayStep(player: HapticPlayer, steps: seq<PatternStep>, i: int, durationMs: int,
                  calls: seq<Call>, ghost sent: seq<Request>) returns (calls': seq<Call>)
    requires player.Valid() && 0 <= i < |steps| && forall k :: 0 <= k < |steps| ==> IsStep(steps[k])
    requires calls == PatternCallsUpTo(steps, durationMs, i)
    requires player.outbox == sent + (if player.Live() then Emissions(calls) else [])
    modifies player`outbox
    ensures player.Valid()
    ensures calls' == PatternCallsUpTo(steps, durationMs, i + 1)
    ensures player.outbox == sent + (if player.Live() then Emissions(calls') else [])
  {
    var stepCalls := ActivateMotorArray(player, steps[i], durationMs);
    SentAppend(sent, player.Live(), calls, stepCalls);
    calls' := calls + stepCalls;
  }

  /** The loop of `example_wave_pattern` / `example_alternating_pattern`: every step in order. */
  method PlayPattern(player: HapticPlayer, steps: seq<PatternStep>, durationMs: int) returns (calls: seq<Call>)
    requires player.Valid() && forall i :: 0 <= i < |steps| ==> IsStep(steps[i])
    modifies player`outbox
    ensures player.Valid()
    ensures calls == PatternCalls(steps, durationMs)
    ensures player.outbox == old(player.outbox) + (if player.Live() then Emissions(calls) else [])
  {
    calls := [];
    ghost var sent := player.outbox;
    for i := 0 to |steps|
      invariant player.Valid()
      invariant calls == PatternCallsUpTo(steps, durationMs, i)
      invariant player.outbox == sent + (if player.Live() then Emissions(calls) else [])
    {
      calls := PlayStep(player, steps, i, durationMs, calls, sent);
    }
  }

  // ---------------------------------------------------------------------
  // The two example patterns.
  // ---------------------------------------------------------------------

  /** `WAVE_PATTERN`: a full row travelling from top to bottom, 100 in front and 50 behind. */
  const WavePattern: seq<PatternStep> := [
    PatternStep(
      [[100, 100, 100, 100], [0, 0, 0, 0], [0, 0, 0, 0], [0, 0, 0, 0], [0, 0, 0, 0]],
      [[50, 50, 50, 50], [0, 0, 0, 0], [0, 0, 0, 0], [0, 0, 0, 0], [0, 0, 0, 0]]),
    PatternStep(
      [[0, 0, 0, 0], [100, 100, 100, 100], [0, 0, 0, 0], [0, 0, 0, 0], [0, 0, 0, 0]],
      [[0, 0, 0, 0], [50, 50, 50, 50], [0, 0, 0, 0], [0, 0, 0, 0], [0, 0, 0, 0]]),
    PatternStep(
      [[0, 0, 0, 0], [0, 0, 0, 0], [100, 100, 100, 100], [0, 0, 0, 0], [0, 0, 0, 0]],
      [[0, 0, 0, 0], [0, 0, 0, 0], [50, 50, 50, 50], [0, 0, 0, 0], [0, 0, 0, 0]]),
    PatternStep(
      [[0, 0, 0, 0], [0, 0, 0, 0], [0, 0, 0, 0], [100, 100, 100, 100], [0, 0, 0, 0]],
      [[0, 0, 0, 0], [0, 0, 0, 0], [0, 0, 0, 0], [50, 50, 50, 50], [0, 0, 0, 0]]),
    PatternStep(
      [[0, 0, 0, 0], [0, 0, 0, 0], [0, 0, 0, 0], [0, 0, 0, 0], [100, 100, 100, 100]],
      [[0, 0, 0, 0], [0, 0, 0, 0], [0, 0, 0, 0], [0, 0, 0, 0], [50, 50, 50, 50]])
  ]

  /** `ALTERNATING_PATTERN`: all front, all back, then columns 0 and 2 in front, then behind. */
  const AlternatingPattern: seq<PatternStep> := [
    PatternStep(
      [[100, 100, 100, 100], [100, 100, 100, 100], [100, 100, 100, 100], [100, 100, 100, 100], [100, 100, 100, 100]],
      [[0, 0, 0, 0], [0, 0, 0, 0], [0, 0, 0, 0], [0, 0, 0, 0], [0, 0, 0, 0]]),
    PatternStep(
      [[0, 0, 0, 0], [0, 0, 0, 0], [0, 0, 0, 0], [0, 0, 0, 0], [0, 0, 0, 0]],
      [[100, 100, 100, 100], [100, 100, 100, 100], [100, 100, 100, 100], [100, 100, 100, 100], [100, 100, 100, 100]]),
    PatternStep(
      [[100, 0, 100, 0], [100, 0, 100, 0], [100, 0, 100, 0], [100, 0, 100, 0], [100, 0, 100, 0]],
      [[0, 0, 0, 0], [0, 0, 0, 0], [0, 0, 0, 0], [0, 0, 0, 0], [0, 0, 0, 0]]),
    PatternStep(
      [[0, 0, 0, 0], [0, 0, 0, 0], [0, 0, 0, 0], [0, 0, 0, 0], [0, 0, 0, 0]],
      [[100, 0, 100, 0], [100, 0, 100, 0], [100, 0, 100, 0], [100, 0, 100, 0], [100, 0, 100, 0]])
  ]

  // ---------------------------------------------------------------------
  // The shapes the example grids take, and the calls each shape makes.
  // ---------------------------------------------------------------------

  /** A row of four equal intensities. */
  function Fill(v: int): seq<int> {
    [v, v, v, v]
  }

  /** Every row at intensity `v`. */
  predicate Uniform(g: Grid, v: int) {
    |g| == 5 && forall r :: 0 <= r < 5 ==> g[r] == Fill(v)
  }

  /** Row `i` at intensity `v`, every other row off. */
  predicate RowOnly(g: Grid, i: int, v: int) {
    |g| == 5 && forall r :: 0 <= r < 5 ==> g[r] == (if r == i then Fill(v) else Fill(0))
  }

  /** Columns 0 and 2 at intensity `v` in every row, columns 1 and 3 off. */
  predicate EvenColumns(g: Grid, v: int) {
    |g| == 5 && forall r :: 0 <= r < 5 ==> g[r] == [v, 0, v, 0]
  }

  /** Calls on `count` consecutive motors from `lo`, all at intensity `v`. */
  function Run(panel: string, lo: int, count: nat, v: int, d: int): (r: seq<Call>)
    ensures |r| == count
  {
    seq(count, j => Call(panel, lo + j, v, d))
  }

  /** Calls on the `count` even motors 0, 2, 4, ..., all at intensity `v`. */
  function EvenRun(panel: string, count: nat, v: int, d: int): (r: seq<Call>)
    ensures |r| == count
  {
    seq(count, j => Call(panel, 2 * j, v, d))
  }

  /** Motors `lo` up to `hi` at intensity `v` and the rest off give one call per motor of the band, in order. */
  lemma {:induction false} BandCalls(panel: string, cells: seq<int>, d: int, n: nat, lo: int, hi: int, v: int)
    requires n <= |cells| && 0 <= lo <= hi && v > 0
    requires forall k :: 0 <= k < |cells| ==> cells[k] == (if lo <= k < hi then v else 0)
    ensures PanelCallsUpTo(panel, cells, d, n)
         == Run(panel, lo, if n <= lo then 0 else if n >= hi then hi - lo else n - lo, v, d)
  {
    if n > 0 {
      BandCalls(panel, cells, d, n - 1, lo, hi, v);
      var m := n - 1;
      if lo <= m < hi {
        var c := m - lo;
        assert Run(panel, lo, c + 1, v, d) == Run(panel, lo, c, v, d) + [Call(panel, m, v, d)];
      }
    }
  }

  /** Even motors at intensity `v` and odd motors off give one call per even motor, in order. */
  lemma {:induction false} EvenCalls(panel: string, cells: seq<int>, d: int, n: nat, v: int)
    requires n <= |cells| && v > 0
    requires forall k :: 0 <= k < |cells| ==> cells[k] == (if k % 2 == 0 then v else 0)
    ensures PanelCallsUpTo(panel, cells, d, n) == EvenRun(panel, (n + 1) / 2, v, d)
  {
    if n > 0 {
      EvenCalls(panel, cells, d, n - 1, v);
      var m := n - 1;
      if m % 2 == 0 {
        assert EvenRun(panel, m / 2 + 1, v, d) == EvenRun(panel, m / 2, v, d) + [Call(panel, m, v, d)];
      }
    }
  }

  /** A row-only grid puts intensity `v` on motors `4 * i` to `4 * i + 3` and nothing elsewhere. */
  lemma RowOnlyCells(g: Grid, i: int, v: int)
    requires RowOnly(g, i, v)
    ensures IsGrid(g)
    ensures forall k :: 0 <= k < 20 ==> Cells(g)[k] == (if 4 * i <= k < 4 * i + 4 then v else 0)
  {
    forall k | 0 <= k < 20
      ensures Cells(g)[k] == (if 4 * i <= k < 4 * i + 4 then v else 0)
    {
      MotorOfCell(g, k / 4, k % 4);
    }
  }

  /** A uniform grid puts intensity `v` on all twenty motors. */
  lemma UniformCells(g: Grid, v: int)
    requires Uniform(g, v)
    ensures IsGrid(g)
    ensures forall k :: 0 <= k < 20 ==> Cells(g)[k] == v
  {
    forall k | 0 <= k < 20
      ensures Cells(g)[k] == v
    {
      MotorOfCell(g, k / 4, k % 4);
    }
  }

  /** An even-columns grid puts intensity `v` on the even motors and nothing on the odd ones. */
  lemma EvenColumnsCells(g: Grid, v: int)
    requires EvenColumns(g, v)
    ensures IsGrid(g)
    ensures forall k :: 0 <= k < 20 ==> Cells(g)[k] == (if k % 2 == 0 then v else 0)
  {
    forall k | 0 <= k < 20
      ensures Cells(g)[k] == (if k % 2 == 0 then v else 0)
    {
      var r, c := k / 4, k % 4;
      MotorOfCell(g, r, c);
      assert k % 2 == c % 2;
    }
  }

  // ---------------------------------------------------------------------
  // What the two example patterns do.
  // ---------------------------------------------------------------------

  /** Step `i` of the wave pattern lights row `i`: 100 in front, 50 behind. */
  lemma WaveShape(i: int)
    requires 0 <= i < 5
    ensures RowOnly(WavePattern[i].front, i, 100) && RowOnly(WavePattern[i].back, i, 50)
  {
    forall r | 0 <= r < 5
      ensures WavePattern[i].front[r] == (if r == i then Fill(100) else Fill(0))
      ensures WavePattern[i].back[r] == (if r == i then Fill(50) else Fill(0))
    {
      assert i == 0 || i == 1 || i == 2 || i == 3 || i == 4;
      assert r == 0 || r == 1 || r == 2 || r == 3 || r == 4;
    }
  }

  /**
   * Step `i` of the wave pattern makes exactly eight calls: motors
   * `4 * i` to `4 * i + 3` in front at 100, then the same motors behind at 50.
   */
  lemma WaveStepCalls(i: int, d: int)
    requires 0 <= i < 5
    ensures IsStep(WavePattern[i])
    ensures StepCalls(WavePattern[i], d) == Run("front", 4 * i, 4, 100, d) + Run("back", 4 * i, 4, 50, d)
  {
    var s := WavePattern[i];
    WaveShape(i);
    RowOnlyCells(s.front, i, 100);
    RowOnlyCells(s.back, i, 50);
    BandCalls("front", Cells(s.front), d, 20, 4 * i, 4 * i + 4, 100);
    BandCalls("back", Cells(s.back), d, 20, 4 * i, 4 * i + 4, 50);
  }

  /** Both panels of every wave step are well-formed 5x4 grids with intensities in 0..100. */
  lemma WaveWellFormed()
    ensures forall i :: 0 <= i < |WavePattern| ==>
      IsStep(WavePattern[i]) && InRange(WavePattern[i].front) && InRange(WavePattern[i].back)
  {
    forall i | 0 <= i < |WavePattern|
      ensures IsStep(WavePattern[i]) && InRange(WavePattern[i].front) && InRange(WavePattern[i].back)
    {
      WaveShape(i);
      RowOnlyCells(WavePattern[i].front, i, 100);
      RowOnlyCells(WavePattern[i].back, i, 50);
    }
  }

  /** Call `k` of the whole wave, when it falls in step `i`, by its offset in that step. */
  lemma WaveStepCall(i: int, k: int, d: int)
    requires 0 <= i < 5 && 8 * i <= k < 8 * i + 8
    ensures var c := (Run("front", 4 * i, 4, 100, d) + Run("back", 4 * i, 4, 50, d))[k - 8 * i];
      c == if k % 8 < 4 then Call("front", 4 * (k / 8) + k % 4, 100, d)
           else Call("back", 4 * (k / 8) + k % 4, 50, d)
  {
    assert k / 8 == i && k % 8 == k - 8 * i;
  }

  /**
   * The first `n` wave steps make `8 * n` calls; call `k` belongs to step
   * `k / 8`, its first four calls in front at 100 and its last four behind
   * at 50, on the motors of row `k / 8`.
   */
  lemma {:induction false} WaveCallsUpTo(n: nat, d: int)
    requires n <= 5
    ensures forall i :: 0 <= i < |WavePattern| ==> IsStep(WavePattern[i])
    ensures var r := PatternCallsUpTo(WavePattern, d, n);
      && |r| == 8 * n
      && forall k :: 0 <= k < |r| ==>
           r[k] == if k % 8 < 4 then Call("front", 4 * (k / 8) + k % 4, 100, d)
                   else Call("back", 4 * (k / 8) + k % 4, 50, d)
  {
    WaveWellFormed();
    if n > 0 {
      WaveCallsUpTo(n - 1, d);
      WaveStepCalls(n - 1, d);
      var prev, step := PatternCallsUpTo(WavePattern, d, n - 1), StepCalls(WavePattern[n - 1], d);
      var r := prev + step;
      forall k | 0 <= k < 8 * n
        ensures r[k] == if k % 8 < 4 then Call("front", 4 * (k / 8) + k % 4, 100, d)
                        else Call("back", 4 * (k / 8) + k % 4, 50, d)
      {
        if k < 8 * (n - 1) {
          assert r[k] == prev[k];
        } else {
          WaveStepCall(n - 1, k, d);
          assert r[k] == step[k - 8 * (n - 1)];
        }
      }
    }
  }

  /** The wave pattern makes forty calls in all, five steps of eight. */
  lemma WaveCallCount(d: int)
    ensures forall i :: 0 <= i < |WavePattern| ==> IsStep(WavePattern[i])
    ensures |PatternCalls(WavePattern, d)| == 40
  {
    WaveCallsUpTo(5, d);
  }

  /** The four alternating steps: all front, all back, front even columns, back even columns. */
  lemma AlternatingShape()
    ensures Uniform(AlternatingPattern[0].front, 100) && Uniform(AlternatingPattern[0].back, 0)
    ensures Uniform(AlternatingPattern[1].front, 0) && Uniform(AlternatingPattern[1].back, 100)
    ensures EvenColumns(AlternatingPattern[2].front, 100) && Uniform(AlternatingPattern[2].back, 0)
    ensures Uniform(AlternatingPattern[3].front, 0) && EvenColumns(AlternatingPattern[3].back, 100)
  {
    forall r | 0 <= r < 5
      ensures AlternatingPattern[0].front[r] == Fill(100) && AlternatingPattern[0].back[r] == Fill(0)
      ensures AlternatingPattern[1].front[r] == Fill(0) && AlternatingPattern[1].back[r] == Fill(100)
      ensures AlternatingPattern[2].front[r] == [100, 0, 100, 0] && AlternatingPattern[2].back[r] == Fill(0)
      ensures AlternatingPattern[3].front[r] == Fill(0) && AlternatingPattern[3].back[r] == [100, 0, 100, 0]
    {
      assert r == 0 || r == 1 || r == 2 || r == 3 || r == 4;
    }
  }

  /** A uniform grid calls every motor in order when on, and none when off. */
  lemma UniformPanelCalls(panel: string, g: Grid, v: int, d: int)
    requires Uniform(g, v) && v >= 0
    ensures IsGrid(g) && InRange(g) == (v <= 100)
    ensures PanelCalls(panel, g, d) == if v > 0 then Run(panel, 0, 20, v, d) else []
  {
    UniformCells(g, v);
    if v > 0 {
      BandCalls(panel, Cells(g), d, 20, 0, 20, v);
    } else {
      BandCalls(panel, Cells(g), d, 20, 0, 0, 1);
    }
  }

  /** An even-columns grid calls motors 0, 2, ..., 18 in order. */
  lemma EvenColumnsPanelCalls(panel: string, g: Grid, v: int, d: int)
    requires EvenColumns(g, v) && v > 0
    ensures IsGrid(g) && InRange(g) == (v <= 100)
    ensures PanelCalls(panel, g, d) == EvenRun(panel, 10, v, d)
  {
    EvenColumnsCells(g, v);
    EvenCalls(panel, Cells(g), d, 20, v);
  }

  /** Both panels of every alternating step are well-formed 5x4 grids with intensities in 0..100. */
  lemma AlternatingWellFormed()
    ensures forall i :: 0 <= i < |AlternatingPattern| ==>
      IsStep(AlternatingPattern[i]) && InRange(AlternatingPattern[i].front) && InRange(AlternatingPattern[i].back)
  {
    AlternatingShape();
    var p := AlternatingPattern;
    forall i | 0 <= i < 4
      ensures IsStep(p[i]) && InRange(p[i].front) && InRange(p[i].back)
    {
      if i == 0 {
        UniformCells(p[0].front, 100);
        UniformCells(p[0].back, 0);
      } else if i == 1 {
        UniformCells(p[1].front, 0);
        UniformCells(p[1].back, 100);
      } else if i == 2 {
        EvenColumnsCells(p[2].front, 100);
        UniformCells(p[2].back, 0);
      } else {
        UniformCells(p[3].front, 0);
        EvenColumnsCells(p[3].back, 100);
      }
    }
  }

  /**
   * The alternating pattern makes twenty front calls, then twenty back
   * calls, then ten front calls on the even motors (columns 0 and 2),
   * then the same ten behind, all at 100.
   */
  lemma AlternatingCalls(d: int)
    ensures forall i :: 0 <= i < |AlternatingPattern| ==> IsStep(AlternatingPattern[i])
    ensures PatternCalls(AlternatingPattern, d)
         == Run("front", 0, 20, 100, d) + Run("back", 0, 20, 100, d)
          + EvenRun("front", 10, 100, d) + EvenRun("back", 10, 100, d)
  {
    AlternatingShape();
    AlternatingWellFormed();
    var p := AlternatingPattern;
    UniformPanelCalls("front", p[0].front, 100, d);
    UniformPanelCalls("back", p[0].back, 0, d);
    UniformPanelCalls("front", p[1].front, 0, d);
    UniformPanelCalls("back", p[1].back, 100, d);
    EvenColumnsPanelCalls("front", p[2].front, 100, d);
    UniformPanelCalls("back", p[2].back, 0, d);
    UniformPanelCalls("front", p[3].front, 0, d);
    EvenColumnsPanelCalls("back", p[3].back, 100, d);
    assert StepCalls(p[0], d) == Run("front", 0, 20, 100, d);
    assert StepCalls(p[1], d) == Run("back", 0, 20, 100, d);
    assert StepCalls(p[2], d) == EvenRun("front", 10, 100, d);
    assert StepCalls(p[3], d) == EvenRun("back", 10, 100, d);
    assert PatternCallsUpTo(p, d, 1) == StepCalls(p[0], d);
    assert PatternCallsUpTo(p, d, 2) == PatternCallsUpTo(p, d, 1) + StepCalls(p[1], d);
    assert PatternCallsUpTo(p, d, 3) == PatternCallsUpTo(p, d, 2) + StepCalls(p[2], d);
    assert PatternCallsUpTo(p, d, 4) == PatternCallsUpTo(p, d, 3) + StepCalls(p[3], d);
  }

  /** A pattern whose grids stay within 0..100, played with a positive duration, makes only accepted calls. */
  lemma {:induction false} PatternCallsAccepted(steps: seq<PatternStep>, d: int, n: nat)
    requires forall i :: 0 <= i < |steps| ==> IsStep(steps[i]) && InRange(steps[i].front) && InRange(steps[i].back)
    requires n <= |steps| && d > 0
    ensures forall k :: 0 <= k < |PatternCallsUpTo(steps, d, n)| ==> Accepted(PatternCallsUpTo(steps, d, n)[k])
  {
    if n > 0 {
      PatternCallsAccepted(steps, d, n - 1);
      StepCallsAccepted(steps[n - 1], d);
      var prev, step := PatternCallsUpTo(steps, d, n - 1), StepCalls(steps[n - 1], d);
      assert forall k :: |prev| <= k < |prev| + |step| ==> (prev + step)[k] == step[k - |prev|];
    }
  }

  /** Every call of the wave pattern, played at 500 ms, passes the checks of `activate_discrete`: forty frames go out. */
  lemma WaveAccepted()
    ensures forall i :: 0 <= i < |WavePattern| ==> IsStep(WavePattern[i])
    ensures forall k :: 0 <= k < |PatternCalls(WavePattern, 500)| ==> Accepted(PatternCalls(WavePattern, 500)[k])
    ensures |Emissions(PatternCalls(WavePattern, 500))| == |PatternCalls(WavePattern, 500)| == 40
  {
    WaveWellFormed();
    WaveCallCount(500);
    PatternCallsAccepted(WavePattern, 500, 5);
    EmissionsOfAccepted(PatternCalls(WavePattern, 500));
  }

  /** Every call of the alternating pattern, played at 1000 ms, passes the checks: sixty frames go out. */
  lemma AlternatingAccepted()
    ensures forall i :: 0 <= i < |AlternatingPattern| ==> IsStep(AlternatingPattern[i])
    ensures forall k :: 0 <= k < |PatternCalls(AlternatingPattern, 1000)| ==>
      Accepted(PatternCalls(AlternatingPattern, 1000)[k])
    ensures |Emissions(PatternCalls(AlternatingPattern, 1000))| == |PatternCalls(AlternatingPattern, 1000)| == 60
  {
    AlternatingWellFormed();
    AlternatingCalls(1000);
    PatternCallsAccepted(AlternatingPattern, 1000, 4);
    EmissionsOfAccepted(PatternCalls(AlternatingPattern, 1000));
  }

  /** Played at 500 ms, the wave pattern's forty calls put forty frames on a live connection. */
  lemma WaveEmissionCount()
    ensures forall i :: 0 <= i < |WavePattern| ==> IsStep(WavePattern[i])
    ensures |PatternCalls(WavePattern, 500)| == 40 && |Emissions(PatternCalls(WavePattern, 500))| == 40
  {
    WaveAccepted();
  }

  /** Played at 1000 ms, the alternating pattern's sixty calls put sixty frames on a live connection. */
  lemma AlternatingEmissionCount()
    ensures forall i :: 0 <= i < |AlternatingPattern| ==> IsStep(AlternatingPattern[i])
    ensures |PatternCalls(AlternatingPattern, 1000)| == 60 && |Emissions(PatternCalls(AlternatingPattern, 1000))| == 60
  {
    AlternatingAccepted();
  }

  /** The loop of `example_wave_pattern()`: the wave at 500 ms per motor, one frame per call once live. */
  method PlayWave(player: HapticPlayer) returns (calls: seq<Call>)
    requires player.Valid()
    modifies player`outbox
    ensures player.Valid()
    ensures calls == PatternCalls(WavePattern, 500) && |calls| == 40
    ensures player.outbox == old(player.outbox) + (if player.Live() then Emissions(calls) else [])
    ensures player.Live() ==> |player.outbox| == |old(player.outbox)| + 40
  {
    WaveEmissionCount();
    calls := PlayPattern(player, WavePattern, 500);
  }

  /**
   * `example_wave_pattern()`: initialise the player, then play the wave.
   * Once connected, exactly forty dot frames go out, one per call.
   */
  method ExampleWavePattern(player: HapticPlayer, canConnect: bool) returns (calls: seq<Call>)
    requires player.Valid()
    modifies player`hasHandle, player`connected, player`outbox
    ensures player.Valid()
    ensures calls == PatternCalls(WavePattern, 500) && |calls| == 40
    ensures player.outbox == old(player.outbox) + (if player.Live() then Emissions(calls) else [])
    ensures canConnect ==> player.Live() && |player.outbox| == |old(player.outbox)| + 40
  {
    player.Initialize(canConnect);
    calls := PlayWave(player);
  }

  /**
   * `example_alternating_pattern()`: play the alternating pattern at 1000 ms
   * per motor, without initialising. On a live connection exactly sixty dot
   * frames go out, one per call.
   */
  method ExampleAlternatingPattern(player: HapticPlayer) returns (calls: seq<Call>)
    requires player.Valid()
    modifies player`outbox
    ensures player.Valid()
    ensures calls == PatternCalls(AlternatingPattern, 1000) && |calls| == 60
    ensures player.outbox == old(player.outbox) + (if player.Live() then Emissions(calls) else [])
    ensures player.Live() ==> |player.outbox| == |old(player.outbox)| + 60
  {
    AlternatingEmissionCount();
    calls := PlayPattern(player, AlternatingPattern, 1000);
  }
}
