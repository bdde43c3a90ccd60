/**
 * The keyboard callback `key_event` (src/main.cpp:32-46). It ignores key-up events. Escape
 * clears `running`. Numeric-pad plus and minus scale `speed` by 1.5 and 0.75. Any other key is
 * decoded to a character, and `SP<c>;` is written when `'0' < c < '9'`.
 *
 * `Dispatch` is the decision table as a pure function. `Controls` holds the two variables the
 * callback changes, and `Controls.KeyChanged` applies the table to them.
 */
module KeyDispatch {
  import opened Wrappers
  import opened Protocol

  /**
   * A key as the callback sees it. `Other` carries the key's character as
   * `to_ascii(false, false, true)` decodes it (no shift, no ctrl, num-lock on).
   */
  datatype Key = Esc | NumAdd | NumSub | Other(ascii: char)

  datatype KeyState = Up | Down | Repeat

  /** What one key event does: the new `running`, the new `speed`, and the command written, if any. */
  datatype Effect = Effect(running: bool, speed: real, emitted: Option<Command>)

  /** `speed` at start-up (`float speed = 20e3`). */
  const InitialSpeed: real := 20000.0

  /** A pen is selected by the characters strictly between '0' and '9', that is '1' to '8'. */
  predicate SelectsPen(c: char) {
    '0' < c < '9'
  }

  function Dispatch(key: Key, state: KeyState, running: bool, speed: real): (e: Effect)
    ensures state == Up ==> e == Effect(running, speed, None)
    ensures e.running != running <==> state != Up && key == Esc && running
    ensures e.speed != speed ==> state != Up && (key == NumAdd || key == NumSub)
    ensures state != Up && key == NumAdd ==> e.speed == speed * 1.5
    ensures state != Up && key == NumSub ==> e.speed == speed * 0.75
    ensures e.emitted.Some? <==> state != Up && key.Other? && SelectsPen(key.ascii)
    ensures e.emitted.Some? ==> e.emitted.value == SelectPen(key.ascii)
  {
    if state == Up then Effect(running, speed, None)
    else
      match key
      case Esc => Effect(false, speed, None)
      case NumAdd => Effect(running, speed * 1.5, None)
      case NumSub => Effect(running, speed * 0.75, None)
      case Other(c) => Effect(running, speed, if SelectsPen(c) then Some(SelectPen(c)) else None)
  }

  /** The digits '1' to '8' select a pen; '0' and '9' do not. */
  lemma PenDigits(c: char, state: KeyState, running: bool, speed: real)
    requires state != Up && '0' <= c <= '9'
    ensures Dispatch(Other(c), state, running, speed).emitted.Some? <==> c != '0' && c != '9'
  {
  }

  /** One key event, with its press-or-repeat state. */
  datatype KeyEvent = KeyEvent(key: Key, state: KeyState)

  /** Where a sequence of key events leaves `running` and `speed`, and the commands it wrote. */
  datatype Outcome = Outcome(running: bool, speed: real, written: seq<Command>)

  /**
   * The effect of a sequence of key events, one after another, from `running` and `speed`.
   * Each event writes at most one command, and a stopped program stays stopped.
   */
  function DispatchAll(events: seq<KeyEvent>, running: bool, speed: real): (o: Outcome)
    ensures |o.written| <= |events|
    ensures !running ==> !o.running
    decreases |events|
  {
    if events == [] then Outcome(running, speed, [])
    else
      var first := Dispatch(events[0].key, events[0].state, running, speed);
      var rest := DispatchAll(events[1..], first.running, first.speed);
      Outcome(rest.running, rest.speed, (if first.emitted.Some? then [first.emitted.value] else []) + rest.written)
  }

  function Count(events: seq<KeyEvent>, key: Key): nat {
    if events == [] then 0
    else (if events[0].key == key && events[0].state != Up then 1 else 0) + Count(events[1..], key)
  }

  /**
   * Over any sequence of key events, `running` ends true exactly when it started true and no
   * escape was pressed: nothing ever sets it back to true.
   */
  lemma {:induction false} RunningOnlyCleared(events: seq<KeyEvent>, running: bool, speed: real)
    ensures DispatchAll(events, running, speed).running <==> running && Count(events, Esc) == 0
  {
    if events != [] {
      var first := Dispatch(events[0].key, events[0].state, running, speed);
      RunningOnlyCleared(events[1..], first.running, first.speed);
    }
  }

  /** Over any sequence of key events without a plus or minus press, `speed` is unchanged. */
  lemma {:induction false} SpeedOnlyByScaleKeys(events: seq<KeyEvent>, running: bool, speed: real)
    requires Count(events, NumAdd) == 0 && Count(events, NumSub) == 0
    ensures DispatchAll(events, running, speed).speed == speed
  {
    if events != [] {
      var first := Dispatch(events[0].key, events[0].state, running, speed);
      SpeedOnlyByScaleKeys(events[1..], first.running, first.speed);
    }
  }

  /** Over any sequence of key events, every command written selects one of the pens '1' to '8'. */
  lemma {:induction false} OnlyPenSelections(events: seq<KeyEvent>, running: bool, speed: real)
    ensures forall k :: 0 <= k < |DispatchAll(events, running, speed).written| ==>
      DispatchAll(events, running, speed).written[k].SelectPen? &&
      SelectsPen(DispatchAll(events, running, speed).written[k].pen)
  {
    if events != [] {
      var first := Dispatch(events[0].key, events[0].state, running, speed);
      OnlyPenSelections(events[1..], first.running, first.speed);
    }
  }

  /** Two speed-up presses multiply `speed` by 2.25. */
  lemma TwoSpeedUps(speed: real, running: bool)
    ensures DispatchAll([KeyEvent(NumAdd, Down), KeyEvent(NumAdd, Down)], running, speed).speed == speed * 2.25
  {
    var evs := [KeyEvent(NumAdd, Down), KeyEvent(NumAdd, Down)];
    assert evs[1..] == [KeyEvent(NumAdd, Down)];
    assert evs[1..][1..] == [];
  }

  /** The variables the key callback changes. */
  class Controls {
    var running: bool
    var speed: real

    constructor ()
      ensures running && speed == InitialSpeed
    {
      running := true;
      speed := InitialSpeed;
    }

    /** The callback body: applies the decision table and returns the command written, if any. */
    method KeyChanged(key: Key, state: KeyState) returns (emitted: Option<Command>)
      modifies this
      ensures Effect(running, speed, emitted) == Dispatch(key, state, old(running), old(speed))
    {
      emitted := None;
      if state != Up {
        match key
        case Esc => running := false;
        case NumAdd => speed := speed * 1.5;
        case NumSub => speed := speed * 0.75;
        case Other(c) =>
          if '0' < c && c < '9' {
            emitted := Some(SelectPen(c));
          }
      }
    }
  }
}
