/**
 * Joystick calibration (src/main.cpp:57-69). The gameport configuration holds two 4-element
 * arrays, `calibration.min` and `calibration.max`. Their library defaults are first swapped,
 * then a do-while loop folds one raw 4-axis sample per pass into them with an elementwise
 * minimum and maximum. The loop stops after the first pass on which a button is down or
 * `running` is false.
 *
 * The device and the keyboard callback are the environment: pass `k` of the loop reads
 * `readings[k].raw`, then sees `readings[k].buttons` and `readings[k].running` in its exit test.
 */
module Calibration {

  /** One raw sample of the four gameport axes x, y, z, w. */
  type Sample = s: seq<int> | |s| == 4 witness [0, 0, 0, 0]

  /** What one pass of the calibration loop observes. */
  datatype Reading = Reading(raw: Sample, buttons: bv4, running: bool)

  /** The do-while condition: no button is down and the program is still running. */
  predicate KeepsSampling(r: Reading) {
    r.buttons == 0 && r.running
  }

  /** The stream ends the loop somewhere: some pass sees a button or `running == false`. */
  predicate Stops(readings: seq<Reading>) {
    exists k :: 0 <= k < |readings| && !KeepsSampling(readings[k])
  }

  function Min(a: int, b: int): int { if a <= b then a else b }
  function Max(a: int, b: int): int { if a >= b then a else b }

  /** Axis `i` of `calibration.min` after folding `rs` into the starting value `seed`. */
  function Low(seed: int, rs: seq<Reading>, i: nat): int
    requires i < 4
  {
    if rs == [] then seed else Min(Low(seed, rs[..|rs| - 1], i), rs[|rs| - 1].raw[i])
  }

  /** Axis `i` of `calibration.max` after folding `rs` into the starting value `seed`. */
  function High(seed: int, rs: seq<Reading>, i: nat): int
    requires i < 4
  {
    if rs == [] then seed else Max(High(seed, rs[..|rs| - 1], i), rs[|rs| - 1].raw[i])
  }

  /** `Low` is the least of the seed and every folded sample of the axis. */
  lemma {:induction false} LowIsLeast(seed: int, rs: seq<Reading>, i: nat)
    requires i < 4
    ensures Low(seed, rs, i) <= seed
    ensures forall k :: 0 <= k < |rs| ==> Low(seed, rs, i) <= rs[k].raw[i]
    ensures Low(seed, rs, i) == seed || exists k :: 0 <= k < |rs| && Low(seed, rs, i) == rs[k].raw[i]
  {
    if rs != [] {
      var init := rs[..|rs| - 1];
      LowIsLeast(seed, init, i);
      assert forall k :: 0 <= k < |init| ==> init[k] == rs[k];
    }
  }

  /** `High` is the greatest of the seed and every folded sample of the axis. */
  lemma {:induction false} HighIsGreatest(seed: int, rs: seq<Reading>, i: nat)
    requires i < 4
    ensures High(seed, rs, i) >= seed
    ensures forall k :: 0 <= k < |rs| ==> High(seed, rs, i) >= rs[k].raw[i]
    ensures High(seed, rs, i) == seed || exists k :: 0 <= k < |rs| && High(seed, rs, i) == rs[k].raw[i]
  {
    if rs != [] {
      var init := rs[..|rs| - 1];
      HighIsGreatest(seed, init, i);
      assert forall k :: 0 <= k < |init| ==> init[k] == rs[k];
    }
  }

  /** Folding more samples never raises `min` and never lowers `max`. */
  lemma {:induction false} FoldIsMonotone(lo: int, hi: int, rs: seq<Reading>, m: nat, i: nat)
    requires m <= |rs| && i < 4
    ensures Low(lo, rs, i) <= Low(lo, rs[..m], i)
    ensures High(hi, rs, i) >= High(hi, rs[..m], i)
  {
    if m < |rs| {
      var init := rs[..|rs| - 1];
      assert init[..m] == rs[..m];
      FoldIsMonotone(lo, hi, init, m, i);
    } else {
      assert rs[..m] == rs;
    }
  }

  /**
   * After at least one sample, `min <= max` on every axis and every folded sample lies in
   * `[min, max]`, whatever the seeds were.
   */
  lemma CalibratedRange(lo: int, hi: int, rs: seq<Reading>, i: nat)
    requires |rs| >= 1 && i < 4
    ensures Low(lo, rs, i) <= High(hi, rs, i)
    ensures forall k :: 0 <= k < |rs| ==> Low(lo, rs, i) <= rs[k].raw[i] <= High(hi, rs, i)
  {
    LowIsLeast(lo, rs, i);
    HighIsGreatest(hi, rs, i);
    assert Low(lo, rs, i) <= rs[0].raw[i] <= High(hi, rs, i);
  }

  /**
   * When the seeds do not bias the fold (the `min` seed is at or above, the `max` seed at or
   * below, every sample), the result is exactly the observed extremes of the samples.
   */
  lemma NeutralSeeds(lo: int, hi: int, rs: seq<Reading>, i: nat)
    requires |rs| >= 1 && i < 4
    requires forall k :: 0 <= k < |rs| ==> hi <= rs[k].raw[i] <= lo
    ensures exists k :: 0 <= k < |rs| && Low(lo, rs, i) == rs[k].raw[i]
    ensures exists k :: 0 <= k < |rs| && High(hi, rs, i) == rs[k].raw[i]
  {
    LowIsLeast(lo, rs, i);
    HighIsGreatest(hi, rs, i);
    if Low(lo, rs, i) == lo {
      assert Low(lo, rs, i) == rs[0].raw[i];
    }
    if High(hi, rs, i) == hi {
      assert High(hi, rs, i) == rs[0].raw[i];
    }
  }

  lemma FoldStep(seed: int, rs: seq<Reading>, n: nat, i: nat)
    requires n < |rs| && i < 4
    ensures Low(seed, rs[..n + 1], i) == Min(Low(seed, rs[..n], i), rs[n].raw[i])
    ensures High(seed, rs[..n + 1], i) == Max(High(seed, rs[..n], i), rs[n].raw[i])
  {
    assert rs[..n + 1][..n] == rs[..n];
  }

  /**
   * The calibration block: swaps the default bounds, then folds samples in a do-while loop.
   * Returns the number of passes made. `min` and `max` end as the fold of exactly those
   * passes' samples, seeded with the swapped defaults.
   */
  method Calibrate(min: array<int>, max: array<int>, readings: seq<Reading>) returns (passes: nat)
    requires min.Length == 4 && max.Length == 4 && min != max
    requires Stops(readings)
    modifies min, max
    ensures 1 <= passes <= |readings|
    ensures forall k :: 0 <= k < passes - 1 ==> KeepsSampling(readings[k])
    ensures !KeepsSampling(readings[passes - 1])
    ensures forall i :: 0 <= i < 4 ==>
      min[i] == Low(old(max[i]), readings[..passes], i) &&
      max[i] == High(old(min[i]), readings[..passes], i)
    ensures forall i :: 0 <= i < 4 ==> min[i] <= max[i]
    ensures forall k, i :: 0 <= k < passes && 0 <= i < 4 ==> min[i] <= readings[k].raw[i] <= max[i]
  {
    ghost var last :| 0 <= last < |readings| && !KeepsSampling(readings[last]);
    ghost var defaultMin, defaultMax := min[..], max[..];

    // std::swap(calibration.max, calibration.min)
    for i := 0 to 4
      invariant forall j :: 0 <= j < i ==> min[j] == defaultMax[j] && max[j] == defaultMin[j]
      invariant forall j :: i <= j < 4 ==> min[j] == defaultMin[j] && max[j] == defaultMax[j]
    {
      min[i], max[i] := max[i], min[i];
    }

    passes := 0;
    var done := false;
    while !done
      invariant passes <= |readings|
      invariant !done ==> passes <= last
      invariant forall k :: 0 <= k < passes - 1 ==> KeepsSampling(readings[k])
      invariant !done && passes > 0 ==> KeepsSampling(readings[passes - 1])
      invariant done ==> passes >= 1 && !KeepsSampling(readings[passes - 1])
      invariant forall j :: 0 <= j < 4 ==>
        min[j] == Low(defaultMax[j], readings[..passes], j) &&
        max[j] == High(defaultMin[j], readings[..passes], j)
      decreases |readings| - passes
    {
      var raw := readings[passes].raw;
      for i := 0 to 4
        invariant forall j :: 0 <= j < i ==>
          min[j] == Min(Low(defaultMax[j], readings[..passes], j), raw[j]) &&
          max[j] == Max(High(defaultMin[j], readings[..passes], j), raw[j])
        invariant forall j :: i <= j < 4 ==>
          min[j] == Low(defaultMax[j], readings[..passes], j) &&
          max[j] == High(defaultMin[j], readings[..passes], j)
      {
        min[i] := Min(min[i], raw[i]);
        max[i] := Max(max[i], raw[i]);
      }
      forall j | 0 <= j < 4
        ensures min[j] == Low(defaultMax[j], readings[..passes + 1], j)
        ensures max[j] == High(defaultMin[j], readings[..passes + 1], j)
      {
        FoldStep(defaultMax[j], readings, passes, j);
        FoldStep(defaultMin[j], readings, passes, j);
      }
      done := !KeepsSampling(readings[passes]);
      passes := passes + 1;
    }

    forall i | 0 <= i < 4
      ensures min[i] <= max[i]
      ensures forall k :: 0 <= k < passes ==> min[i] <= readings[k].raw[i] <= max[i]
    {
      CalibratedRange(defaultMax[i], defaultMin[i], readings[..passes], i);
    }
  }
}
