/**
 * The tensile-test analyzer (src/TestAnalyzer.h): raw samples of one test are
 * aligned on their rupture point, resampled by linear interpolation on a
 * 16-point grid from 200 ms before to 100 ms after the rupture, and folded
 * into a running mean with min and max per grid point.
 *
 * The first half of the module is the pure specification; class
 * TestAnalyzer is the in-place implementation over two slot lists.
 */
module Analyzer {
  import opened Wrappers
  import opened SlotPool
  import opened Records

  const TEST_MAX_TIME: int := 20000
  const TEST_START_TIME: int := -200
  const TEST_END_TIME: int := 100
  const TEST_STEP_TIME: int := 20
  /** Number of grid points: 16. */
  const MAX_RESULT: nat := ((TEST_END_TIME - TEST_START_TIME) / TEST_STEP_TIME + 1) as nat
  /** Capacity of the raw-sample buffer: 1000. */
  const MAX_RAW_DATA: nat := (TEST_MAX_TIME / TEST_STEP_TIME) as nat

  /** One accumulated grid point: a SensorItem with the min and max it needs. */
  datatype AccPoint = AccPoint(time: int, distance: real, force: real, min: real, max: real)

  function RMax(a: real, b: real): real {
    if a < b then b else a
  }

  function RMin(a: real, b: real): real {
    if b < a then b else a
  }

  predicate Increasing(s: seq<Sample>) {
    forall i, j :: 0 <= i < j < |s| ==> s[i].time < s[j].time
  }

  // ---------------------------------------------------------------- rupture

  /** detect_rupture's condition on its answer k: the first index of the greatest force when some force is positive, else 0. */
  predicate IsRupture(s: seq<Sample>, k: nat) {
    if exists i :: 0 <= i < |s| && s[i].force > 0.0 then
      && k < |s|
      && (forall i :: 0 <= i < |s| ==> s[i].force <= s[k].force)
      && (forall i :: 0 <= i < k ==> s[i].force < s[k].force)
    else k == 0
  }

  /** The state of detect_rupture's scan after the first i samples. */
  predicate ScanInv(s: seq<Sample>, i: nat, best: real, idx: nat) {
    && i <= |s|
    && if idx == 0 && best == 0.0 && forall j :: 0 <= j < i ==> s[j].force <= 0.0 then true
       else
         && idx < i && best == s[idx].force && best > 0.0
         && (forall j :: 0 <= j < i ==> s[j].force <= best)
         && (forall j :: 0 <= j < idx ==> s[j].force < best)
  }

  function RuptureScan(s: seq<Sample>, i: nat, best: real, idx: nat): nat
    requires i <= |s|
    decreases |s| - i
  {
    if i == |s| then idx
    else if s[i].force > best then RuptureScan(s, i + 1, s[i].force, i)
    else RuptureScan(s, i + 1, best, idx)
  }

  /** detect_rupture as a function: the scan from max_force = 0 at index 0. */
  function Rupture(s: seq<Sample>): nat {
    RuptureScan(s, 0, 0.0, 0)
  }

  lemma {:induction false} RuptureScanSpec(s: seq<Sample>, i: nat, best: real, idx: nat)
    requires ScanInv(s, i, best, idx)
    ensures IsRupture(s, RuptureScan(s, i, best, idx))
    decreases |s| - i
  {
    if i == |s| {
      if idx == 0 && best == 0.0 && forall j :: 0 <= j < i ==> s[j].force <= 0.0 {
        assert !exists j :: 0 <= j < |s| && s[j].force > 0.0;
      } else {
        assert s[idx].force > 0.0;
      }
    } else if s[i].force > best {
      assert ScanInv(s, i + 1, s[i].force, i);
      RuptureScanSpec(s, i + 1, s[i].force, i);
    } else {
      assert ScanInv(s, i + 1, best, idx);
      RuptureScanSpec(s, i + 1, best, idx);
    }
  }

  /** Only one index satisfies IsRupture. */
  lemma RuptureUnique(s: seq<Sample>, k1: nat, k2: nat)
    requires IsRupture(s, k1) && IsRupture(s, k2)
    ensures k1 == k2
  {
  }

  /** The scan finds exactly the first strict maximum above zero (index 0 when no force is positive). */
  lemma RuptureIsFirstMax(s: seq<Sample>)
    ensures IsRupture(s, Rupture(s))
    ensures s != [] ==> Rupture(s) < |s|
    ensures forall k: nat :: IsRupture(s, k) ==> k == Rupture(s)
  {
    RuptureScanSpec(s, 0, 0.0, 0);
    forall k: nat | IsRupture(s, k) ensures k == Rupture(s) {
      RuptureUnique(s, k, Rupture(s));
    }
  }

  // ---------------------------------------------------------------- interpolation

  /** The index of the first sample later than target (|s| when none is), where the bracketing scan breaks. */
  function FirstAfter(s: seq<Sample>, target: int): (j: nat)
    ensures j <= |s|
    ensures forall i :: 0 <= i < j ==> s[i].time <= target
    ensures j < |s| ==> s[j].time > target
  {
    if s == [] || s[0].time > target then 0
    else 1 + FirstAfter(s[1..], target)
  }

  /**
   * The index of `prev` after the scan and its fallbacks; `next` is always the
   * sample after it: samples 0 and 1 when nothing is at or before target, the
   * last two when nothing is after it.
   */
  function BracketStart(s: seq<Sample>, target: int): (k: nat)
    requires |s| >= 2
    ensures k + 1 < |s|
  {
    var j := FirstAfter(s, target);
    if j == 0 then 0 else if j == |s| then |s| - 2 else j - 1
  }

  /** The bracket encloses target whenever target lies within the sampled time span. */
  lemma BracketEncloses(s: seq<Sample>, target: int)
    requires |s| >= 2 && Increasing(s)
    ensures var k := BracketStart(s, target);
      && (s[0].time <= target < s[|s| - 1].time ==> s[k].time <= target < s[k + 1].time)
      && (target < s[0].time ==> k == 0)
      && (target >= s[|s| - 1].time ==> k == |s| - 2)
  {
  }

  /** The value at x of the line through (x0, y0) and (x1, y1). */
  function Line(x0: int, y0: real, x1: int, y1: real, x: int): real
    requires x0 != x1
  {
    y0 + (y1 - y0) / (x1 - x0) as real * (x - x0) as real
  }

  lemma LineThroughEnds(x0: int, y0: real, x1: int, y1: real)
    requires x0 != x1
    ensures Line(x0, y0, x1, y1, x0) == y0 && Line(x0, y0, x1, y1, x1) == y1
  {
    var dx := (x1 - x0) as real;
    assert (y1 - y0) / dx * dx == y1 - y0;
  }

  /** calculate_distance: 0 with fewer than two samples, else the bracket's line at target. */
  function DistanceAt(s: seq<Sample>, target: int): (d: real)
    requires Increasing(s)
    ensures |s| < 2 ==> d == 0.0
  {
    if |s| < 2 then 0.0
    else
      var k := BracketStart(s, target);
      Line(s[k].time, s[k].distance, s[k + 1].time, s[k + 1].distance, target)
  }

  /** calculate_force: like calculate_distance on the forces, clamped at zero. */
  function ForceAt(s: seq<Sample>, target: int): (f: real)
    requires Increasing(s)
    ensures f >= 0.0
    ensures |s| < 2 ==> f == 0.0
  {
    if |s| < 2 then 0.0
    else
      var k := BracketStart(s, target);
      RMax(0.0, Line(s[k].time, s[k].force, s[k + 1].time, s[k + 1].force, target))
  }

  /** At a sample's own time the interpolation gives back that sample. */
  lemma AtSampleTime(s: seq<Sample>, i: nat)
    requires |s| >= 2 && Increasing(s) && i < |s|
    ensures DistanceAt(s, s[i].time) == s[i].distance
    ensures ForceAt(s, s[i].time) == RMax(0.0, s[i].force)
  {
    var t := s[i].time;
    var j := FirstAfter(s, t);
    if i + 1 < |s| {
      assert s[i].time < s[i + 1].time;
      assert j == i + 1;
      LineThroughEnds(s[i].time, s[i].distance, s[i + 1].time, s[i + 1].distance);
      LineThroughEnds(s[i].time, s[i].force, s[i + 1].time, s[i + 1].force);
    } else {
      assert j == |s|;
      LineThroughEnds(s[i - 1].time, s[i - 1].distance, s[i].time, s[i].distance);
      LineThroughEnds(s[i - 1].time, s[i - 1].force, s[i].time, s[i].force);
    }
  }

  /** Samples lying on one straight line are reproduced exactly, inside the span and when extrapolating on either side. */
  lemma DistanceOnLine(s: seq<Sample>, a: real, b: real, target: int)
    requires |s| >= 2 && Increasing(s)
    requires forall i :: 0 <= i < |s| ==> s[i].distance == a + b * s[i].time as real
    ensures DistanceAt(s, target) == a + b * target as real
  {
    var k := BracketStart(s, target);
    var p, n := s[k], s[k + 1];
    assert p.distance == a + b * p.time as real && n.distance == a + b * n.time as real;
    LineOfLine(a, b, p.time, n.time, target);
    assert DistanceAt(s, target) == Line(p.time, p.distance, n.time, n.distance, target);
  }

  lemma LineOfLine(a: real, b: real, x0: int, x1: int, x: int)
    requires x0 != x1
    ensures Line(x0, a + b * x0 as real, x1, a + b * x1 as real, x) == a + b * x as real
  {
    var dx := (x1 - x0) as real;
    assert (a + b * x1 as real) - (a + b * x0 as real) == b * dx;
    assert (b * dx) / dx == b;
  }

  /**
   * calculate_distance exactly as written: the backward extrapolation
   * evaluates target_time - prev->time as an unsigned 32-bit subtraction.
   */
  function DistanceAtAsWritten(s: seq<Sample>, target: int): real
    requires Increasing(s)
  {
    if |s| < 2 then 0.0
    else
      var k := BracketStart(s, target);
      var p, n := s[k], s[k + 1];
      p.distance + (n.distance - p.distance) / (n.time - p.time) as real * Wrap32(target - p.time) as real
  }

  /** Once target is at or after the first sample (and within int range) the wrap is harmless. */
  lemma AsWrittenAgreesFromFirstSample(s: seq<Sample>, target: int)
    requires Increasing(s) && |s| >= 2 && s[0].time <= target < 0x8000_0000
    ensures DistanceAtAsWritten(s, target) == DistanceAt(s, target)
  {
    var k := BracketStart(s, target);
    var p, n := s[k], s[k + 1];
    var off := target - p.time;
    assert 0 <= off < 0x1_0000_0000;
    assert Wrap32(off) as real == off as real;
    assert DistanceAtAsWritten(s, target) == p.distance + (n.distance - p.distance) / (n.time - p.time) as real * off as real;
    assert DistanceAt(s, target) == Line(p.time, p.distance, n.time, n.distance, target);
  }

  /** Forces lying on one straight line are reproduced, clamped at zero, inside the span and when extrapolating on either side. */
  lemma ForceOnLine(s: seq<Sample>, a: real, b: real, target: int)
    requires |s| >= 2 && Increasing(s)
    requires forall i :: 0 <= i < |s| ==> s[i].force == a + b * s[i].time as real
    ensures ForceAt(s, target) == RMax(0.0, a + b * target as real)
  {
    var k := BracketStart(s, target);
    var p, n := s[k], s[k + 1];
    assert p.force == a + b * p.time as real && n.force == a + b * n.time as real;
    LineOfLine(a, b, p.time, n.time, target);
    assert ForceAt(s, target) == RMax(0.0, Line(p.time, p.force, n.time, n.force, target));
  }

  /**
   * calculate_force exactly as written: like calculate_distance, the
   * backward extrapolation evaluates target_time - prev->time unsigned.
   */
  function ForceAtAsWritten(s: seq<Sample>, target: int): real
    requires Increasing(s)
  {
    if |s| < 2 then 0.0
    else
      var k := BracketStart(s, target);
      var p, n := s[k], s[k + 1];
      RMax(0.0, p.force + (n.force - p.force) / (n.time - p.time) as real * Wrap32(target - p.time) as real)
  }

  /** Once target is at or after the first sample (and within int range) the wrap is harmless for the force too. */
  lemma ForceAsWrittenAgreesFromFirstSample(s: seq<Sample>, target: int)
    requires Increasing(s) && |s| >= 2 && s[0].time <= target < 0x8000_0000
    ensures ForceAtAsWritten(s, target) == ForceAt(s, target)
  {
    var k := BracketStart(s, target);
    var p, n := s[k], s[k + 1];
    var off := target - p.time;
    assert 0 <= off < 0x1_0000_0000;
    assert Wrap32(off) as real == off as real;
    assert ForceAtAsWritten(s, target) == RMax(0.0, p.force + (n.force - p.force) / (n.time - p.time) as real * off as real);
    assert ForceAt(s, target) == RMax(0.0, Line(p.time, p.force, n.time, n.force, target));
  }

  /**
   * Two samples at 150 ms and 250 ms: the rupture is at 250 ms, so the first
   * grid target is 50 ms, before the first sample. The intended backward
   * extrapolation gives -1; the code as written gives a value above 10^7.
   */
  lemma BackwardExtrapolationWraps()
    ensures var s := [Sample(0.0, 1.0, 150), Sample(1.0, 5.0, 250)];
      && Increasing(s) && Rupture(s) == 1
      && s[Rupture(s)].time + TEST_START_TIME == 50
      && DistanceAt(s, 50) == -1.0
      && DistanceAtAsWritten(s, 50) > 10000000.0
  {
    var s := [Sample(0.0, 1.0, 150), Sample(1.0, 5.0, 250)];
    assert IsRupture(s, 1);
    RuptureIsFirstMax(s);
    assert FirstAfter(s, 50) == 0;
    assert Wrap32(50 - 150) == 0x1_0000_0000 - 100;
  }

  /**
   * The same two samples with forces 1 and 5: the intended backward
   * extrapolation of the force, 1 + 0.04 * (50 - 150) = -3, is clamped to 0;
   * the code as written gives a force above 10^8.
   */
  lemma ForceExtrapolationWraps()
    ensures var s := [Sample(0.0, 1.0, 150), Sample(1.0, 5.0, 250)];
      && Increasing(s) && Rupture(s) == 1
      && s[Rupture(s)].time + TEST_START_TIME == 50
      && ForceAt(s, 50) == 0.0
      && ForceAtAsWritten(s, 50) > 100000000.0
  {
    var s := [Sample(0.0, 1.0, 150), Sample(1.0, 5.0, 250)];
    assert IsRupture(s, 1);
    RuptureIsFirstMax(s);
    assert FirstAfter(s, 50) == 0;
    assert Wrap32(50 - 150) == 0x1_0000_0000 - 100;
  }

  // ---------------------------------------------------------------- accumulation

  /** The k-th grid time, relative to the rupture. */
  function GridTime(k: nat): int {
    TEST_START_TIME + k * TEST_STEP_TIME
  }

  /** One entry per grid time, in grid order. */
  predicate OnGrid(acc: seq<AccPoint>) {
    |acc| == MAX_RESULT && forall k :: 0 <= k < |acc| ==> acc[k].time == GridTime(k)
  }

  /** What addTest needs of the raw samples: at least one, increasing times, and grid targets that are not negative. */
  predicate TestReady(s: seq<Sample>) {
    && |s| >= 1 && Increasing(s)
    && Rupture(s) < |s|
    && s[Rupture(s)].time + TEST_START_TIME >= 0
  }

  /** The raw sample time of the rupture. */
  function RuptureTime(s: seq<Sample>): int
    requires TestReady(s)
  {
    s[Rupture(s)].time
  }

  /** A new grid entry: min and max start at the force. */
  function Seed(t: int, d: real, f: real): (p: AccPoint)
    ensures p.min == p.force == p.max
  {
    AccPoint(t, d, f, f, f)
  }

  /** The running-mean update: a mean of w values, with x added. */
  function Mean(a: real, x: real, w: real): real
    requires w >= 0.0
  {
    (a * w + x) / (w + 1.0)
  }

  /** Folds the n+1-th trial into an entry that holds the mean of n trials. */
  function Fold(p: AccPoint, d: real, f: real, n: nat): AccPoint {
    p.(distance := Mean(p.distance, d, n as real), force := Mean(p.force, f, n as real),
       max := RMax(p.max, f), min := RMin(p.min, f))
  }

  /** The distance a test contributes to grid point k. */
  function ObservedDistance(s: seq<Sample>, k: nat): real
    requires TestReady(s)
  {
    DistanceAt(s, RuptureTime(s) + GridTime(k))
  }

  /** What a test contributes to grid point k is read off the curves at rupture time plus the offset. */
  lemma ObservedAtTarget(s: seq<Sample>, k: nat, t: int)
    requires TestReady(s) && t == RuptureTime(s) + GridTime(k)
    ensures ObservedDistance(s, k) == DistanceAt(s, t) && ObservedForce(s, k) == ForceAt(s, t)
  {
  }

  /** The force a test contributes to grid point k. */
  function ObservedForce(s: seq<Sample>, k: nat): real
    requires TestReady(s)
  {
    ForceAt(s, RuptureTime(s) + GridTime(k))
  }

  /** Grid point k after addTest(n): seeded on an empty grid, folded into the existing entry otherwise. */
  function AddTestPoint(acc: seq<AccPoint>, s: seq<Sample>, n: nat, k: nat): (p: AccPoint)
    requires acc == [] || OnGrid(acc)
    requires TestReady(s) && k < MAX_RESULT
    ensures p.time == GridTime(k)
  {
    if acc == [] then Seed(GridTime(k), ObservedDistance(s, k), ObservedForce(s, k))
    else Fold(acc[k], ObservedDistance(s, k), ObservedForce(s, k), n)
  }

  /** addTest(n) on the accumulated entries: every grid point updated, the grid complete afterwards. */
  function AddTestSpec(acc: seq<AccPoint>, s: seq<Sample>, n: nat): (acc': seq<AccPoint>)
    requires acc == [] || OnGrid(acc)
    requires TestReady(s)
    ensures OnGrid(acc')
  {
    seq(MAX_RESULT, k requires 0 <= k < MAX_RESULT => AddTestPoint(acc, s, n, k))
  }

  /** addTest(0), addTest(1), ... on one test after another, starting from a cleared analyzer. */
  function Accumulate(tests: seq<seq<Sample>>): (acc: seq<AccPoint>)
    requires forall i :: 0 <= i < |tests| ==> TestReady(tests[i])
    ensures tests == [] <==> acc == []
    ensures tests != [] ==> OnGrid(acc)
  {
    if tests == [] then []
    else AddTestSpec(Accumulate(tests[..|tests| - 1]), tests[|tests| - 1], |tests| - 1)
  }

  /** Seeding with the first observation, then folding in the others in order. */
  function FoldPoint(t: int, ds: seq<real>, fs: seq<real>): (p: AccPoint)
    requires |ds| == |fs| > 0
    ensures p.time == t
  {
    var n := |fs| - 1;
    if n == 0 then Seed(t, ds[0], fs[0])
    else Fold(FoldPoint(t, ds[..n], fs[..n]), ds[n], fs[n], n)
  }

  function Sum(xs: seq<real>): real {
    if xs == [] then 0.0 else Sum(xs[..|xs| - 1]) + xs[|xs| - 1]
  }

  function SeqMax(xs: seq<real>): (m: real)
    requires xs != []
    ensures forall i :: 0 <= i < |xs| ==> xs[i] <= m
  {
    if |xs| == 1 then xs[0]
    else
      var m := RMax(SeqMax(xs[..|xs| - 1]), xs[|xs| - 1]);
      assert forall i :: 0 <= i < |xs| - 1 ==> xs[..|xs| - 1][i] == xs[i];
      m
  }

  function SeqMin(xs: seq<real>): (m: real)
    requires xs != []
    ensures forall i :: 0 <= i < |xs| ==> m <= xs[i]
  {
    if |xs| == 1 then xs[0]
    else
      var m := RMin(SeqMin(xs[..|xs| - 1]), xs[|xs| - 1]);
      assert forall i :: 0 <= i < |xs| - 1 ==> xs[..|xs| - 1][i] == xs[i];
      m
  }

  /** The minimum and the maximum are elements of the sequence. */
  lemma {:induction false} MinMaxAttained(xs: seq<real>)
    requires xs != []
    ensures exists i :: 0 <= i < |xs| && xs[i] == SeqMin(xs)
    ensures exists i :: 0 <= i < |xs| && xs[i] == SeqMax(xs)
  {
    var n := |xs| - 1;
    if n > 0 {
      var front := xs[..n];
      MinMaxAttained(front);
      var i :| 0 <= i < n && front[i] == SeqMin(front);
      var j :| 0 <= j < n && front[j] == SeqMax(front);
      assert xs[i] == front[i] && xs[j] == front[j];
      if SeqMin(xs) == xs[n] { assert xs[n] == SeqMin(xs); } else { assert xs[i] == SeqMin(xs); }
      if SeqMax(xs) == xs[n] { assert xs[n] == SeqMax(xs); } else { assert xs[j] == SeqMax(xs); }
    } else {
      assert xs[0] == SeqMin(xs) && xs[0] == SeqMax(xs);
    }
  }

  /** The forces the tests contribute to grid point k, in test order. */
  function Forces(tests: seq<seq<Sample>>, k: nat): (fs: seq<real>)
    requires forall i :: 0 <= i < |tests| ==> TestReady(tests[i])
    ensures |fs| == |tests|
    ensures forall i :: 0 <= i < |tests| ==> fs[i] == ObservedForce(tests[i], k)
  {
    if tests == [] then []
    else
      var n := |tests| - 1;
      assert forall i :: 0 <= i < n ==> tests[..n][i] == tests[i];
      Forces(tests[..n], k) + [ObservedForce(tests[n], k)]
  }

  /** The distances the tests contribute to grid point k, in test order. */
  function Distances(tests: seq<seq<Sample>>, k: nat): (ds: seq<real>)
    requires forall i :: 0 <= i < |tests| ==> TestReady(tests[i])
    ensures |ds| == |tests|
    ensures forall i :: 0 <= i < |tests| ==> ds[i] == ObservedDistance(tests[i], k)
  {
    if tests == [] then []
    else
      var n := |tests| - 1;
      assert forall i :: 0 <= i < n ==> tests[..n][i] == tests[i];
      Distances(tests[..n], k) + [ObservedDistance(tests[n], k)]
  }

  /** Each entry of the accumulated grid is its grid point's observations folded in test order. */
  lemma {:induction false} AccumulatePointwise(tests: seq<seq<Sample>>, k: nat)
    requires forall i :: 0 <= i < |tests| ==> TestReady(tests[i])
    requires tests != [] && k < MAX_RESULT
    ensures Accumulate(tests)[k] == FoldPoint(GridTime(k), Distances(tests, k), Forces(tests, k))
  {
    var n := |tests| - 1;
    var front := tests[..n];
    var acc := Accumulate(front);
    assert Accumulate(tests) == AddTestSpec(acc, tests[n], n);
    assert Accumulate(tests)[k] == AddTestPoint(acc, tests[n], n, k);
    if n > 0 {
      AccumulatePointwise(front, k);
      ObservationsSnoc(tests, k);
    } else {
      assert front == [];
    }
  }

  /** The observations of all tests are those of the earlier tests followed by the last one's. */
  lemma ObservationsSnoc(tests: seq<seq<Sample>>, k: nat)
    requires forall i :: 0 <= i < |tests| ==> TestReady(tests[i])
    requires |tests| > 1
    ensures var n := |tests| - 1;
      && Distances(tests, k)[..n] == Distances(tests[..n], k)
      && Forces(tests, k)[..n] == Forces(tests[..n], k)
  {
  }

  /** Updating the mean S / w of w values with x gives the mean of the w + 1 values. */
  lemma MeanStep(sum: real, x: real, w: real)
    requires w > 0.0
    ensures Mean(sum / w, x, w) == (sum + x) / (w + 1.0)
  {
    var q := sum / w;
    assert q * w == sum;
  }

  /**
   * Folding n observations gives their arithmetic mean for distance and
   * force, and the minimum and maximum force.
   */
  lemma {:induction false} FoldIsMean(t: int, ds: seq<real>, fs: seq<real>)
    requires |ds| == |fs| > 0
    ensures var p := FoldPoint(t, ds, fs);
      && p.distance == Sum(ds) / |ds| as real
      && p.force == Sum(fs) / |fs| as real
      && p.min == SeqMin(fs)
      && p.max == SeqMax(fs)
  {
    var n := |fs| - 1;
    if n == 0 {
      assert ds[..0] == [] && fs[..0] == [];
    } else {
      var w := n as real;
      FoldIsMean(t, ds[..n], fs[..n]);
      MeanStep(Sum(ds[..n]), ds[n], w);
      MeanStep(Sum(fs[..n]), fs[n], w);
      assert w + 1.0 == |fs| as real;
    }
  }

  /** A mean of n values at least m, updated with one more such value, stays at least m. */
  lemma ConvexLow(a: real, x: real, m: real, n: real)
    requires n >= 0.0 && a >= m && x >= m
    ensures Mean(a, x, n) >= m
  {
    assert a * n >= m * n;
    assert a * n + x >= m * (n + 1.0);
  }

  /** A mean of n values at most m, updated with one more such value, stays at most m. */
  lemma ConvexHigh(a: real, x: real, m: real, n: real)
    requires n >= 0.0 && a <= m && x <= m
    ensures Mean(a, x, n) <= m
  {
    assert a * n <= m * n;
    assert a * n + x <= m * (n + 1.0);
  }

  /** The folded mean force stays between the folded min and max. */
  lemma {:induction false} FoldWithinMinMax(t: int, ds: seq<real>, fs: seq<real>)
    requires |ds| == |fs| > 0
    ensures FoldPoint(t, ds, fs).min <= FoldPoint(t, ds, fs).force <= FoldPoint(t, ds, fs).max
  {
    var n := |fs| - 1;
    if n > 0 {
      var p := FoldPoint(t, ds[..n], fs[..n]);
      var q := FoldPoint(t, ds, fs);
      FoldWithinMinMax(t, ds[..n], fs[..n]);
      assert q == Fold(p, ds[n], fs[n], n);
      var lo, hi := RMin(p.min, fs[n]), RMax(p.max, fs[n]);
      ConvexLow(p.force, fs[n], lo, n as real);
      ConvexHigh(p.force, fs[n], hi, n as real);
      assert q.min == lo && q.max == hi;
      assert q.force == Mean(p.force, fs[n], n as real);
    }
  }

  /**
   * After addTest(0), ..., addTest(k-1) on k tests, each grid entry holds the
   * mean of the k interpolated distances and forces, the minimum and maximum
   * force, and a mean force between the two.
   */
  lemma AccumulateIsMean(tests: seq<seq<Sample>>, k: nat)
    requires forall i :: 0 <= i < |tests| ==> TestReady(tests[i])
    requires tests != [] && k < MAX_RESULT
    ensures var p := Accumulate(tests)[k];
      && p.time == GridTime(k)
      && p.distance == Sum(Distances(tests, k)) / |tests| as real
      && p.force == Sum(Forces(tests, k)) / |tests| as real
      && p.min == SeqMin(Forces(tests, k)) && p.max == SeqMax(Forces(tests, k))
      && p.min <= p.force <= p.max
  {
    AccumulatePointwise(tests, k);
    FoldIsMean(GridTime(k), Distances(tests, k), Forces(tests, k));
    FoldWithinMinMax(GridTime(k), Distances(tests, k), Forces(tests, k));
  }

  /** The index of the first entry whose time is t (getPoint), or None. */
  function FindTime(acc: seq<AccPoint>, t: int): (r: Option<nat>)
    ensures r.Some? ==> r.value < |acc| && acc[r.value].time == t
    ensures r.Some? ==> forall i :: 0 <= i < r.value ==> acc[i].time != t
    ensures r.None? ==> forall i :: 0 <= i < |acc| ==> acc[i].time != t
  {
    if acc == [] then None
    else if acc[0].time == t then Some(0)
    else match FindTime(acc[1..], t)
      case None => None
      case Some(i) => Some(i + 1)
  }

  /** One grid point of addTest on the grid acc: fold into the first entry for t, or append a new one. */
  function AccumulateStep(acc: seq<AccPoint>, t: int, d: real, f: real, n: nat): seq<AccPoint> {
    match FindTime(acc, t)
    case Some(i) => acc[i := Fold(acc[i], d, f, n)]
    case None => if |acc| < MAX_RESULT then acc + [Seed(t, d, f)] else acc
  }

  /** The first index holding t is what FindTime returns. */
  lemma FindTimeFirst(acc: seq<AccPoint>, t: int, i: nat)
    requires i < |acc| && acc[i].time == t
    requires forall j :: 0 <= j < i ==> acc[j].time != t
    ensures FindTime(acc, t) == Some(i)
  {
  }

  /** On the grid, getPoint finds exactly the 16 grid times, at their grid position. */
  lemma FindOnGrid(acc: seq<AccPoint>, t: int)
    requires OnGrid(acc)
    ensures FindTime(acc, t).Some? <==> TEST_START_TIME <= t <= TEST_END_TIME && (t - TEST_START_TIME) % TEST_STEP_TIME == 0
    ensures FindTime(acc, t).Some? ==> FindTime(acc, t).value == (t - TEST_START_TIME) / TEST_STEP_TIME
  {
    if TEST_START_TIME <= t <= TEST_END_TIME && (t - TEST_START_TIME) % TEST_STEP_TIME == 0 {
      var k := (t - TEST_START_TIME) / TEST_STEP_TIME;
      assert acc[k].time == t;
    }
  }

  /** The 37-sample recording used as a test vector: 0.1 s apart, peak force 4.66 at 1200 ms. */
  const RECORDING: seq<Sample> := [
    Sample(0.20, 0.51, 100), Sample(0.37, 1.47, 200), Sample(0.53, 2.27, 300), Sample(0.67, 3.04, 400),
    Sample(0.78, 3.50, 500), Sample(0.88, 3.80, 600), Sample(0.99, 4.13, 700), Sample(1.09, 4.33, 800),
    Sample(1.19, 4.64, 900), Sample(1.29, 4.63, 1000), Sample(1.40, 4.65, 1100), Sample(1.50, 4.66, 1200),
    Sample(1.60, 4.62, 1300), Sample(1.70, 4.58, 1400), Sample(1.80, 4.58, 1500), Sample(1.90, 4.57, 1600),
    Sample(2.01, 4.38, 1700), Sample(2.11, 4.17, 1800), Sample(2.21, 4.04, 1900), Sample(2.31, 3.98, 2000),
    Sample(2.42, 3.78, 2100), Sample(2.52, 3.59, 2200), Sample(2.62, 3.60, 2300), Sample(2.72, 3.70, 2400),
    Sample(2.82, 3.84, 2500), Sample(2.92, 4.08, 2600), Sample(3.03, 4.29, 2700), Sample(3.13, 4.39, 2800),
    Sample(3.23, 4.35, 2900), Sample(3.33, 4.23, 3000), Sample(3.44, 4.02, 3100), Sample(3.54, 3.71, 3200),
    Sample(3.64, 3.51, 3300), Sample(3.74, 3.28, 3400), Sample(3.84, 2.88, 3500), Sample(3.94, 1.73, 3600),
    Sample(4.05, 0.48, 3700)]

  /** Times that increase from each sample to the next increase throughout. */
  lemma StepsUpIncreasing(s: seq<Sample>)
    requires forall i :: 0 <= i < |s| - 1 ==> s[i].time < s[i + 1].time
    ensures Increasing(s)
  {
    forall i, j | 0 <= i < j < |s| ensures s[i].time < s[j].time {
      StepsUpChain(s, i, j);
    }
  }

  lemma {:induction false} StepsUpChain(s: seq<Sample>, i: nat, j: nat)
    requires forall i :: 0 <= i < |s| - 1 ==> s[i].time < s[i + 1].time
    requires i < j < |s|
    ensures s[i].time < s[j].time
    decreases j - i
  {
    if i + 1 < j {
      StepsUpChain(s, i + 1, j);
    }
  }

  /** The recording's times increase. */
  lemma RecordingIncreasing(s: seq<Sample>)
    requires s == RECORDING
    ensures |s| == 37 && Increasing(s)
  {
    assert forall i :: 0 <= i < 36 ==> s[i].time == 100 * (i + 1);
    StepsUpIncreasing(s);
  }

  /** The recording's forces peak, strictly first, at its 12th sample. */
  lemma RecordingMaxAt11(s: seq<Sample>)
    requires s == RECORDING
    ensures |s| == 37 && IsRupture(s, 11)
  {
    assert s[11].force == 4.66;
    assert forall i :: 0 <= i < 37 ==> s[i].force <= 4.66;
    assert forall i :: 0 <= i < 11 ==> s[i].force < 4.66;
  }

  /** The recording ruptures at its 12th sample, 1200 ms. */
  lemma RecordingRupture(s: seq<Sample>)
    requires s == RECORDING
    ensures Increasing(s) && Rupture(s) == 11 && TestReady(s)
    ensures RuptureTime(s) == 1200
  {
    RecordingIncreasing(s);
    RecordingMaxAt11(s);
    assert s[11].time == 1200;
    RuptureAt(s, 11);
  }

  /** A sample that is the rupture fixes Rupture, and the rupture time when it is late enough. */
  lemma RuptureAt(s: seq<Sample>, k: nat)
    requires Increasing(s) && k < |s| && IsRupture(s, k) && s[k].time + TEST_START_TIME >= 0
    ensures Rupture(s) == k && TestReady(s) && RuptureTime(s) == s[k].time
  {
    RuptureIsFirstMax(s);
  }

  /** At grid time 0 a test contributes its force at the rupture itself. */
  lemma ObservedAtRupture(s: seq<Sample>)
    requires TestReady(s) && |s| >= 2
    ensures ObservedForce(s, (0 - TEST_START_TIME) / TEST_STEP_TIME) == RMax(0.0, s[Rupture(s)].force)
  {
    AtSampleTime(s, Rupture(s));
  }

  /** After one test, each grid entry is that test's observation, with min = max = force. */
  lemma SingleTest(s: seq<Sample>, k: nat)
    requires TestReady(s) && k < MAX_RESULT
    ensures Accumulate([s])[k] == Seed(GridTime(k), ObservedDistance(s, k), ObservedForce(s, k))
  {
    assert [s][..0] == [];
  }

  /** A single test of the recording puts the peak force, 4.66, at grid time 0. */
  lemma RecordingPeakAtZero(s: seq<Sample>)
    requires s == RECORDING
    ensures TestReady(s)
    ensures Accumulate([s])[(0 - TEST_START_TIME) / TEST_STEP_TIME].force == 4.66
  {
    RecordingRupture(s);
    ObservedAtRupture(s);
    SingleTest(s, (0 - TEST_START_TIME) / TEST_STEP_TIME);
  }

  // ---------------------------------------------------------------- the class

  /** TestAnalyzer: the accumulated grid (16 slots) and the raw samples of the current test (1000 slots). */
  class TestAnalyzer {
    const accumulated: SlotList<AccPoint>
    const testData: SlotList<Sample>

    ghost function Repr(): set<object> {
      accumulated.Repr() + testData.Repr()
    }

    /** Both containers are sound, of the source's sizes, and share no storage. */
    ghost predicate Wf()
      reads Repr()
    {
      && accumulated.Valid() && testData.Valid()
      && accumulated.MaxSize() == MAX_RESULT && testData.MaxSize() == MAX_RAW_DATA
      && accumulated.Repr() !! testData.Repr()
    }

    /** Between calls the grid is empty or complete. */
    ghost predicate Valid()
      reads Repr()
    {
      Wf() && (accumulated.Contents() == [] || OnGrid(accumulated.Contents()))
    }

    function Points(): seq<AccPoint>
      reads Repr()
      requires Wf()
    {
      accumulated.Contents()
    }

    function Samples(): seq<Sample>
      reads Repr()
      requires Wf()
    {
      testData.Contents()
    }

    constructor ()
      ensures Valid() && fresh(Repr()) && Points() == [] && Samples() == []
    {
      accumulated := new SlotList(MAX_RESULT);
      testData := new SlotList(MAX_RAW_DATA);
    }

    /** clear: forgets the accumulated grid; the raw samples stay. */
    method Clear()
      requires Valid()
      modifies accumulated.Repr()
      ensures Valid() && Points() == [] && Samples() == old(Samples())
    {
      accumulated.Clear();
    }

    /** clearData: forgets the raw samples; the grid stays. */
    method ClearData()
      requires Valid()
      modifies testData.Repr()
      ensures Valid() && Samples() == [] && Points() == old(Points())
    {
      testData.Clear();
    }

    /** isEmpty: no accumulated entry. */
    method IsEmpty() returns (e: bool)
      requires Valid()
      ensures e <==> Points() == []
    {
      e := accumulated.Size() < 1;
    }

    /** addPoint: appends one sample (its time converted to uint32_t) when the raw buffer has room. */
    method AddPoint(distance: real, force: real, time: int) returns (ok: bool)
      requires Valid()
      modifies testData.Repr()
      ensures Valid() && Points() == old(Points())
      ensures ok <==> |old(Samples())| < MAX_RAW_DATA
      ensures Samples() == old(Samples()) + if ok then [Sample(distance, force, Wrap32(time))] else []
    {
      var item := testData.GetEmpty();
      if item.Some? {
        testData.Store(item.value, Sample(distance, force, Wrap32(time)));
        var _ := testData.Push(item);
        return true;
      }
      return false;
    }

    /** detect_rupture */
    method DetectRupture() returns (k: nat)
      requires Wf()
      ensures k == Rupture(Samples()) && IsRupture(Samples(), k)
    {
      ghost var s := Samples();
      var maxForce := 0.0;
      k := 0;
      var i := 0;
      while i < testData.Size()
        invariant ScanInv(s, i, maxForce, k)
        invariant RuptureScan(s, i, maxForce, k) == Rupture(s)
      {
        var item := testData.pool.vals[testData.refs[i]];
        if item.force > maxForce {
          maxForce := item.force;
          k := i;
        }
        i := i + 1;
      }
      RuptureIsFirstMax(s);
    }

    /** The bracketing scan shared by calculate_distance and calculate_force, with their fallbacks. */
    method Bracket(target: int) returns (k: nat)
      requires Wf() && |Samples()| >= 2
      ensures k == BracketStart(Samples(), target)
    {
      ghost var s := Samples();
      ghost var j := FirstAfter(s, target);
      var n := testData.Size();
      var prev: Option<nat> := None;
      var next: Option<nat> := None;
      var i := 0;
      while i < n
        invariant i <= j && next.None?
        invariant prev == if i == 0 then None else Some(i - 1)
      {
        var item := testData.pool.vals[testData.refs[i]];
        if item.time <= target {
          prev := Some(i);
        }
        if item.time > target && next.None? {
          next := Some(i);
          break;
        }
        i := i + 1;
      }
      if prev.None? {
        k := 0;
      } else if next.None? {
        k := n - 2;
      } else {
        k := prev.value;
      }
    }

    /** calculate_distance */
    method CalculateDistance(target: int) returns (d: real)
      requires Wf() && Increasing(Samples())
      ensures d == DistanceAt(Samples(), target)
    {
      if testData.Size() < 2 {
        return 0.0;
      }
      var k := Bracket(target);
      var prev, next := testData.pool.vals[testData.refs[k]], testData.pool.vals[testData.refs[k + 1]];
      var slope := (next.distance - prev.distance) / (next.time - prev.time) as real;
      d := prev.distance + slope * (target - prev.time) as real;
    }

    /** calculate_force */
    method CalculateForce(target: int) returns (f: real)
      requires Wf() && Increasing(Samples())
      ensures f == ForceAt(Samples(), target)
    {
      if testData.Size() < 2 {
        return 0.0;
      }
      var k := Bracket(target);
      var prev, next := testData.pool.vals[testData.refs[k]], testData.pool.vals[testData.refs[k + 1]];
      var slope := (next.force - prev.force) / (next.time - prev.time) as real;
      f := RMax(0.0, prev.force + slope * (target - prev.time) as real);
    }

    /** getPoint: the slot of the first entry whose time is `time`, or None. */
    method GetPoint(time: int) returns (p: Option<nat>)
      requires Wf()
      ensures p.None? <==> FindTime(Points(), time).None?
      ensures p.Some? ==> p.value == accumulated.refs[FindTime(Points(), time).value]
      ensures p.Some? ==> p.value < MAX_RESULT && accumulated.pool.vals[p.value] == Points()[FindTime(Points(), time).value]
    {
      ghost var acc := Points();
      var i := 0;
      while i < accumulated.Size()
        invariant i <= |acc|
        invariant forall j :: 0 <= j < i ==> acc[j].time != time
      {
        var slot := accumulated.refs[i];
        if accumulated.pool.vals[slot].time == time {
          FindTimeFirst(acc, time, i);
          return Some(slot);
        }
        i := i + 1;
      }
      return None;
    }

    /**
     * One grid point of addTest: fold into the entry for relTime, or create
     * it. A new entry needs a free slot: the source dereferences getEmpty()
     * unchecked.
     */
    method AccumulateAt(relTime: int, distance: real, force: real, numTests: nat) returns (created: bool)
      requires Wf() && (FindTime(Points(), relTime).None? ==> |Points()| < MAX_RESULT)
      modifies accumulated.Repr()
      ensures Wf() && Samples() == old(Samples())
      ensures created <==> FindTime(old(Points()), relTime).None?
      ensures Points() == AccumulateStep(old(Points()), relTime, distance, force, numTests)
    {
      var item := GetPoint(relTime);
      if item.None? {
        var slot := accumulated.GetEmpty();
        accumulated.Store(slot.value, Seed(relTime, distance, force));
        var _ := accumulated.Push(slot);
        return true;
      }
      ghost var r := FindTime(Points(), relTime).value;
      accumulated.Store(item.value, Fold(accumulated.pool.vals[item.value], distance, force, numTests));
      return false;
    }

    /** One pass of addTest's loop: interpolate at rupture time plus relTime and fold the values into the grid. */
    method AccumulateOffset(ruptureTime: int, relTime: int, numTests: nat, ghost k: nat)
      requires Wf() && TestReady(Samples()) && ruptureTime == RuptureTime(Samples()) && relTime == GridTime(k)
      requires FindTime(Points(), relTime).None? ==> |Points()| < MAX_RESULT
      modifies accumulated.Repr()
      ensures Wf() && Samples() == old(Samples())
      ensures Points() == AccumulateStep(old(Points()), relTime,
                                         ObservedDistance(Samples(), k), ObservedForce(Samples(), k), numTests)
    {
      var target := ruptureTime + relTime;
      var distance := CalculateDistance(target);
      var force := CalculateForce(target);
      ObservedAtTarget(Samples(), k, target);
      var _ := AccumulateAt(relTime, distance, force, numTests);
    }

    /** The time of the raw sample at the rupture: test_data[detect_rupture()]->time. */
    method DetectRuptureTime() returns (t: int)
      requires Wf() && TestReady(Samples())
      ensures t == RuptureTime(Samples())
    {
      var ruptureIndex := DetectRupture();
      t := testData.pool.vals[testData.refs[ruptureIndex]].time;
    }

    /** addTest(numTests): AddTestSpec on the grid, over the raw samples of this test. */
    method AddTest(numTests: nat)
      requires Valid() && TestReady(Samples())
      modifies accumulated.Repr()
      ensures Valid() && Samples() == old(Samples())
      ensures Points() == AddTestSpec(old(Points()), Samples(), numTests)
    {
      var ruptureTime := DetectRuptureTime();
      GridPasses(ruptureTime, numTests);
    }

    /** addTest's loop over the grid times, from TEST_START_TIME to TEST_END_TIME. */
    method GridPasses(ruptureTime: int, numTests: nat)
      requires Valid() && TestReady(Samples()) && ruptureTime == RuptureTime(Samples())
      modifies accumulated.Repr()
      ensures Wf() && Samples() == old(Samples())
      ensures Points() == AddTestSpec(old(Points()), Samples(), numTests)
    {
      ghost var s := Samples();
      ghost var acc0 := Points();
      ghost var goal := AddTestSpec(acc0, s, numTests);
      assert Points() == PartialGrid(acc0, goal, 0);
      var relTime := TEST_START_TIME;
      ghost var k: nat := 0;
      while relTime <= TEST_END_TIME
        invariant k <= MAX_RESULT && relTime == GridTime(k)
        invariant GridPassed(s, ruptureTime, numTests, acc0, goal, k)
      {
        GridPass(ruptureTime, relTime, numTests, k, s, acc0, goal);
        relTime := relTime + TEST_STEP_TIME;
        k := k + 1;
      }
      assert k == MAX_RESULT;
      PartialGridDone(acc0, goal);
    }

    /**
     * The state of addTest's loop after k passes: the raw samples untouched
     * and the first k grid entries at their final values.
     */
    ghost predicate GridPassed(s: seq<Sample>, ruptureTime: int, numTests: nat,
                               acc0: seq<AccPoint>, goal: seq<AccPoint>, k: nat)
      reads Repr()
    {
      && Wf() && Samples() == s && TestReady(s) && ruptureTime == RuptureTime(s)
      && (acc0 == [] || OnGrid(acc0)) && goal == AddTestSpec(acc0, s, numTests)
      && k <= MAX_RESULT && Points() == PartialGrid(acc0, goal, k)
    }

    /** The k-th pass of addTest's loop brings one more grid entry to its final value. */
    method GridPass(ruptureTime: int, relTime: int, numTests: nat, ghost k: nat,
                    ghost s: seq<Sample>, ghost acc0: seq<AccPoint>, ghost goal: seq<AccPoint>)
      requires GridPassed(s, ruptureTime, numTests, acc0, goal, k)
      requires k < MAX_RESULT && relTime == GridTime(k)
      modifies accumulated.Repr()
      ensures GridPassed(s, ruptureTime, numTests, acc0, goal, k + 1)
    {
      ghost var cur := Points();
      GridPointRoom(acc0, goal, k);
      AccumulateOffset(ruptureTime, relTime, numTests, k);
      GridStepResult(acc0, goal, Samples(), numTests, k, cur, Points());
    }
  }

  /** The grid while addTest runs: the first k entries updated, the others as they were. */
  function PartialGrid(acc0: seq<AccPoint>, goal: seq<AccPoint>, k: nat): seq<AccPoint>
    requires k <= |goal| && (acc0 == [] || k <= |acc0|)
  {
    goal[..k] + if acc0 == [] then [] else acc0[k..]
  }

  /** While addTest runs, a grid time not yet in the grid always finds a free slot. */
  lemma GridPointRoom(acc0: seq<AccPoint>, goal: seq<AccPoint>, k: nat)
    requires (acc0 == [] || OnGrid(acc0)) && OnGrid(goal) && k < MAX_RESULT
    ensures var cur := PartialGrid(acc0, goal, k);
      FindTime(cur, GridTime(k)).None? ==> |cur| < MAX_RESULT
  {
    if acc0 != [] {
      var cur := PartialGrid(acc0, goal, k);
      assert forall i :: 0 <= i < |cur| ==> cur[i].time == GridTime(i);
      FindTimeFirst(cur, GridTime(k), k);
    }
  }

  lemma PartialGridDone(acc0: seq<AccPoint>, goal: seq<AccPoint>)
    requires |goal| == MAX_RESULT && (acc0 == [] || |acc0| == MAX_RESULT)
    ensures PartialGrid(acc0, goal, MAX_RESULT) == goal
  {
    assert goal[..MAX_RESULT] == goal;
  }

  /** The k-th step of addTest extends the updated prefix of the grid by one entry. */
  lemma GridStepResult(acc0: seq<AccPoint>, goal: seq<AccPoint>, s: seq<Sample>, n: nat, k: nat,
                       cur: seq<AccPoint>, next: seq<AccPoint>)
    requires acc0 == [] || OnGrid(acc0)
    requires TestReady(s) && goal == AddTestSpec(acc0, s, n) && k < MAX_RESULT
    requires cur == PartialGrid(acc0, goal, k)
    requires next == AccumulateStep(cur, GridTime(k), ObservedDistance(s, k), ObservedForce(s, k), n)
    ensures next == PartialGrid(acc0, goal, k + 1)
  {
    assert goal[k] == AddTestPoint(acc0, s, n, k);
    if acc0 == [] {
      GridStepFresh(goal, k, ObservedDistance(s, k), ObservedForce(s, k), n);
    } else {
      GridStepFull(acc0, goal, k, ObservedDistance(s, k), ObservedForce(s, k), n);
    }
  }

  /** On a fresh grid the k-th step appends the seeded entry after the k already made. */
  lemma GridStepFresh(goal: seq<AccPoint>, k: nat, d: real, f: real, n: nat)
    requires OnGrid(goal) && k < MAX_RESULT && goal[k] == Seed(GridTime(k), d, f)
    ensures AccumulateStep(goal[..k], GridTime(k), d, f, n) == goal[..k + 1]
  {
    var cur := goal[..k];
    assert forall i :: 0 <= i < |cur| ==> cur[i].time == GridTime(i);
    assert FindTime(cur, GridTime(k)).None?;
    assert goal[..k + 1] == cur + [goal[k]];
  }

  /** On a complete grid the k-th step folds into entry k and leaves the others. */
  lemma GridStepFull(acc0: seq<AccPoint>, goal: seq<AccPoint>, k: nat, d: real, f: real, n: nat)
    requires OnGrid(acc0) && OnGrid(goal) && k < MAX_RESULT && goal[k] == Fold(acc0[k], d, f, n)
    ensures AccumulateStep(goal[..k] + acc0[k..], GridTime(k), d, f, n) == goal[..k + 1] + acc0[k + 1..]
  {
    var cur := goal[..k] + acc0[k..];
    assert forall i :: 0 <= i < |cur| ==> cur[i].time == GridTime(i);
    FindTimeFirst(cur, GridTime(k), k);
    assert cur[k] == acc0[k];
    assert cur[k := goal[k]] == goal[..k + 1] + acc0[k + 1..];
  }

}
