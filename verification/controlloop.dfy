/**
 * What the main control loop writes to the serial line (src/main.cpp:75, 87-99): first the
 * literal `IN;PA5180,3800;`, then one `PR<dx>,<dy>;` per pass of `while (running)`, then `IN;`.
 *
 * Each pass of the loop is an environment step: the value of `running` the loop test reads,
 * and the displacement of that tick after rounding and the cast to `std::int16_t`. `Run`
 * produces the commands in the order they are written; `TraceText` gives their text.
 */
module ControlLoop {
  import opened Wrappers
  import opened Protocol

  /** One steady-state tick: the `running` flag the loop test sees, and the tick's displacement. */
  datatype Tick = Tick(running: bool, dx: Int16, dy: Int16)

  /** The home position the plotter is sent to after initialisation. */
  const HomeX: Int16 := 5180
  const HomeY: Int16 := 3800

  /** The run of ticks ends: some loop test sees `running == false`. */
  predicate Stops(ticks: seq<Tick>) {
    exists k :: 0 <= k < |ticks| && !ticks[k].running
  }

  /** The pass at which the loop test first sees `running == false`. */
  function FirstStop(ticks: seq<Tick>): (n: nat)
    requires Stops(ticks)
    ensures n < |ticks| && !ticks[n].running
    ensures forall k :: 0 <= k < n ==> ticks[k].running
    decreases |ticks|
  {
    if !ticks[0].running then 0
    else
      assert Stops(ticks[1..]) by {
        var k :| 0 <= k < |ticks| && !ticks[k].running;
        assert ticks[1..][k - 1] == ticks[k];
      }
      1 + FirstStop(ticks[1..])
  }

  /**
   * Only the first stop has no stop before it, so the pass count `Run` returns, which its
   * ensures describe in exactly these terms, is `FirstStop(ticks)`.
   */
  lemma FirstStopUnique(ticks: seq<Tick>, n: nat)
    requires Stops(ticks)
    requires n < |ticks| && !ticks[n].running
    requires forall k :: 0 <= k < n ==> ticks[k].running
    ensures n == FirstStop(ticks)
  {
    var f := FirstStop(ticks);
    if n < f {
      assert false;
    } else if f < n {
      assert false;
    }
  }

  /** The relative moves written for a run of ticks, one per tick. */
  function Moves(ticks: seq<Tick>): (ms: seq<Command>)
    ensures |ms| == |ticks|
  {
    if ticks == [] then [] else Moves(ticks[..|ticks| - 1]) + [MoveRelative(ticks[|ticks| - 1].dx, ticks[|ticks| - 1].dy)]
  }

  /** The `k`-th relative move is the displacement of the `k`-th tick. */
  lemma {:induction false} MovesAt(ticks: seq<Tick>, k: nat)
    requires k < |ticks|
    ensures Moves(ticks)[k] == MoveRelative(ticks[k].dx, ticks[k].dy)
  {
    var init := ticks[..|ticks| - 1];
    if k < |init| {
      MovesAt(init, k);
    }
  }

  /** The whole command stream of the steady state and shutdown, for the ticks that ran. */
  function Trace(ticks: seq<Tick>): (t: seq<Command>)
    ensures |t| == |ticks| + 3
    ensures t[0] == Init && t[|t| - 1] == Init
  {
    [Init, MoveAbsolute(HomeX, HomeY)] + Moves(ticks) + [Init]
  }

  /**
   * The steady state and shutdown. Returns the commands written, in order, and the number of
   * loop passes. The loop runs exactly while `running` holds, and stops at the first test that
   * sees it false. When that is the very first test, nothing but init, home and init is written.
   */
  method Run(ticks: seq<Tick>) returns (sent: seq<Command>, passes: nat)
    requires Stops(ticks)
    ensures passes < |ticks| && !ticks[passes].running
    ensures forall k :: 0 <= k < passes ==> ticks[k].running
    ensures sent == Trace(ticks[..passes])
    ensures !ticks[0].running ==> passes == 0 && sent == [Init, MoveAbsolute(HomeX, HomeY), Init]
  {
    ghost var last :| 0 <= last < |ticks| && !ticks[last].running;
    sent := [Init, MoveAbsolute(HomeX, HomeY)];
    passes := 0;
    while ticks[passes].running
      invariant passes <= last
      invariant forall k :: 0 <= k < passes ==> ticks[k].running
      invariant sent == [Init, MoveAbsolute(HomeX, HomeY)] + Moves(ticks[..passes])
      decreases last - passes
    {
      var t := ticks[passes];
      sent := sent + [MoveRelative(t.dx, t.dy)];
      assert ticks[..passes + 1][..passes] == ticks[..passes];
      passes := passes + 1;
    }
    sent := sent + [Init];
  }

  /**
   * The text of a trace is `IN;PA5180,3800;`, then the `PR` commands of the ticks, then `IN;`;
   * and it reads back as exactly init, home, one relative move per tick, init.
   */
  lemma TraceText(ticks: seq<Tick>)
    ensures RenderAll(Trace(ticks)) == "IN;PA5180,3800;" + RenderAll(Moves(ticks)) + "IN;"
    ensures ParseAll(RenderAll(Trace(ticks))) == Some(Trace(ticks))
  {
    var home := [Init, MoveAbsolute(HomeX, HomeY)];
    HomeText();
    RenderAllAppend(home, Moves(ticks));
    RenderAllAppend(home + Moves(ticks), [Init]);
    assert RenderAll([Init]) == "IN;";
    StreamRoundTrip(Trace(ticks));
  }

  /** Every trace starts with `Init` and the move home, ends with `Init`, and between them holds one `PR` per tick. */
  lemma TraceShape(ticks: seq<Tick>)
    ensures |Trace(ticks)| == |ticks| + 3
    ensures Trace(ticks)[0] == Init && Trace(ticks)[1] == MoveAbsolute(5180, 3800)
    ensures Trace(ticks)[|ticks| + 2] == Init
    ensures forall k :: 0 <= k < |ticks| ==> Trace(ticks)[k + 2] == MoveRelative(ticks[k].dx, ticks[k].dy)
  {
    forall k | 0 <= k < |ticks|
      ensures Trace(ticks)[k + 2] == MoveRelative(ticks[k].dx, ticks[k].dy)
    {
      MovesAt(ticks, k);
    }
  }

  /**
   * When `running` is already false at the first loop test (escape was pressed during
   * calibration), `Run` writes only init, home and init; this is their text: the plotter is
   * still initialised and sent home before the final `IN;`.
   */
  lemma StoppedRunText()
    ensures RenderAll([Init, MoveAbsolute(HomeX, HomeY), Init]) == "IN;PA5180,3800;IN;"
  {
    HomeText();
    RenderAllAppend([Init, MoveAbsolute(HomeX, HomeY)], [Init]);
    assert [Init, MoveAbsolute(HomeX, HomeY)] + [Init] == [Init, MoveAbsolute(HomeX, HomeY), Init];
  }
}
