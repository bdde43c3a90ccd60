/**
 * The gameport callback `button_event` (src/main.cpp:77-83). It keeps the last reported
 * 4-bit button set in a function-local static, starting at 0. On each report it XORs the new
 * set against the stored one. If bit 0 differs it writes `PD;` when the new bit 0 is set and
 * `PU;` otherwise. It then stores the new set.
 *
 * `Edge` is the step as a pure function, `ButtonDetector` the object holding the static, and
 * `Emissions` the commands written over a sequence of reports.
 */
module ButtonEdge {
  import opened Wrappers
  import opened Protocol

  /** Bit 0 of a button set: the fire button that lowers and raises the pen. */
  function Fire(state: bv4): bv4 {
    state & 1
  }

  /** The command one report writes, given the previously stored set. */
  function Edge(last: bv4, state: bv4): (r: Option<Command>)
    ensures r.Some? <==> Fire(last) != Fire(state)
    ensures r == Some(PenDown) <==> Fire(last) == 0 && Fire(state) == 1
    ensures r == Some(PenUp) <==> Fire(last) == 1 && Fire(state) == 0
  {
    var x := last ^ state;
    if x & 1 == 1 then Some(if state & 1 == 1 then PenDown else PenUp) else None
  }

  /** A report identical to the stored set, or one differing in bits 1 to 3 only, writes nothing. */
  lemma NoEdgeWithoutFireChange(last: bv4, state: bv4)
    requires last & 1 == state & 1
    ensures Edge(last, state) == None
  {
  }

  /** The holder of the callback's `static std::bitset<4> last_state`. */
  class ButtonDetector {
    var lastState: bv4

    constructor ()
      ensures lastState == 0
    {
      lastState := 0;
    }

    /** The callback body: returns the command it writes, if any, and stores the report. */
    method Changed(state: bv4) returns (emitted: Option<Command>)
      modifies this
      ensures emitted == Edge(old(lastState), state)
      ensures lastState == state
    {
      var x := lastState ^ state;
      emitted := None;
      if x & 1 == 1 {
        emitted := Some(if state & 1 == 1 then PenDown else PenUp);
      }
      lastState := state;
    }
  }

  /**
   * The commands written over a sequence of reports, starting from the stored set `last`:
   * at most one per report, and only pen-down and pen-up commands.
   */
  function Emissions(last: bv4, reports: seq<bv4>): (cs: seq<Command>)
    ensures |cs| <= |reports|
    ensures forall k :: 0 <= k < |cs| ==> cs[k] == PenDown || cs[k] == PenUp
    decreases |reports|
  {
    if reports == [] then []
    else
      var e := Edge(last, reports[0]);
      (if e.Some? then [e.value] else []) + Emissions(reports[0], reports[1..])
  }

  /** The set stored after a sequence of reports. */
  function Stored(last: bv4, reports: seq<bv4>): bv4 {
    if reports == [] then last else reports[|reports| - 1]
  }

  /** The `k`-th pen command of an alternating run whose first command is `PenDown` exactly when the pen starts up. */
  function Expected(startUp: bool, k: nat): Command {
    if (k % 2 == 0) == startUp then PenDown else PenUp
  }

  /**
   * Over any sequence of reports the commands written alternate, beginning with the opposite
   * of the stored fire bit: after a `PD;` the next command is a `PU;` and the other way round.
   */
  lemma {:induction false} EmissionsAlternate(last: bv4, reports: seq<bv4>)
    ensures forall k :: 0 <= k < |Emissions(last, reports)| ==>
      Emissions(last, reports)[k] == Expected(Fire(last) == 0, k)
    decreases |reports|
  {
    if reports != [] {
      var e := Edge(last, reports[0]);
      var tail := Emissions(reports[0], reports[1..]);
      EmissionsAlternate(reports[0], reports[1..]);
      if e.Some? {
        assert Fire(reports[0]) != Fire(last);
        assert forall k :: 0 < k < 1 + |tail| ==> ([e.value] + tail)[k] == tail[k - 1];
      }
    }
  }

  /** Number of `PD;` minus number of `PU;`. */
  function PenBalance(cs: seq<Command>): int {
    if cs == [] then 0
    else (if cs[0] == PenDown then 1 else if cs[0] == PenUp then -1 else 0) + PenBalance(cs[1..])
  }

  lemma {:induction false} PenBalanceAppend(a: seq<Command>, b: seq<Command>)
    ensures PenBalance(a + b) == PenBalance(a) + PenBalance(b)
  {
    if a == [] {
      assert a + b == b;
    } else {
      assert (a + b)[1..] == a[1..] + b;
      PenBalanceAppend(a[1..], b);
    }
  }

  /** Over any sequence of reports, the pen balance is the change of the stored fire bit. */
  lemma {:induction false} BalanceTracksFire(last: bv4, reports: seq<bv4>)
    ensures PenBalance(Emissions(last, reports)) == Fire(Stored(last, reports)) as int - Fire(last) as int
    decreases |reports|
  {
    if reports != [] {
      var e := Edge(last, reports[0]);
      var head := if e.Some? then [e.value] else [];
      BalanceTracksFire(reports[0], reports[1..]);
      PenBalanceAppend(head, Emissions(reports[0], reports[1..]));
      assert Stored(reports[0], reports[1..]) == Stored(last, reports);
      assert Fire(reports[0]) as int - Fire(last) as int == PenBalance(head);
    }
  }

  /**
   * From the start-up state (`last_state == 0`), the number of `PD;` minus the number of `PU;`
   * is 0 or 1, and it is 1 exactly when the fire button was down in the last report.
   */
  lemma PenBalanceFromStart(reports: seq<bv4>)
    ensures PenBalance(Emissions(0, reports)) == Fire(Stored(0, reports)) as int
    ensures 0 <= PenBalance(Emissions(0, reports)) <= 1
  {
    BalanceTracksFire(0, reports);
    assert Fire(Stored(0, reports)) <= 1;
  }
}
