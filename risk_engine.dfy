/**
 * calculate_risk_scores: turns a close/volume series into a 0-100 risk value
 * per day. Features are relative changes, a change-point search splits them
 * into segments, every index of a segment gets the segment's volatility, and
 * the result is min-max normalised, smoothed by an EMA, clipped and scaled.
 */
module RiskEngine {
  import opened Wrappers
  import opened Calendar

  /** Added to every divisor of a relative change. */
  const DivisionGuard: real := 0.000000001
  /** A raw range narrower than this is degenerate. */
  const FlatRange: real := 0.000000001
  /** Smoothed values below this become exactly 0. */
  const ClipFloor: real := 0.00001
  /** The EMA weight actually used, whatever smoothing_alpha is passed. */
  const Alpha: real := 0.3
  /** The value every index gets when the raw range is degenerate. */
  const Midpoint: real := 0.5
  const Percent: real := 100.0
  const DefaultBreakpoints: nat := 5
  const DefaultSmoothing: real := 0.3

  datatype PriceRow = PriceRow(date: Date, close: real, volume: real)

  /** The input frame: its column names and its rows in order. */
  datatype PriceFrame = PriceFrame(columns: set<string>, rows: seq<PriceRow>)

  datatype RiskRow = RiskRow(symbol: string, date: Date, riskValue: real)

  datatype EngineError =
    | MissingColumns       // ValueError: close or volume absent
    | SegmentationFailed   // the change-point library raised

  /** One row of the feature matrix: return and volume change. */
  datatype Feature = Feature(ret: real, volChange: real)

  /**
   * Binseg(model="rbf").fit(features).predict(n_bkps): the end index of every
   * segment, or None where the library raises.
   */
  type Segmenter = (seq<Feature>, nat) -> Option<seq<nat>>

  predicate HasPriceColumns(df: PriceFrame) {
    "close" in df.columns && "volume" in df.columns
  }

  // ---- features ----

  predicate Divisible(p: seq<real>) {
    forall t :: 0 <= t < |p| ==> p[t] + DivisionGuard != 0.0
  }

  /** (cur - prev) / (prev + 1e-9). */
  function Rate(prev: real, cur: real): real
    requires prev + DivisionGuard != 0.0
  {
    (cur - prev) / (prev + DivisionGuard)
  }

  /** np.diff(p) / (p[:-1] + 1e-9). */
  function Changes(p: seq<real>): (r: seq<real>)
    requires Divisible(p)
    ensures |r| == if |p| == 0 then 0 else |p| - 1
    ensures forall t :: 0 <= t < |r| ==> r[t] == Rate(p[t], p[t + 1])
  {
    if |p| <= 1 then [] else seq(|p| - 1, t requires 0 <= t < |p| - 1 => Rate(p[t], p[t + 1]))
  }

  /** Rebuilds a series from its first value and its relative changes. */
  function Reconstruct(p0: real, rates: seq<real>): (p: seq<real>)
    ensures |p| == |rates| + 1 && p[0] == p0
    decreases |rates|
  {
    if rates == [] then [p0]
    else [p0] + Reconstruct(Grow(p0, rates[0]), rates[1..])
  }

  /** The value a relative change leads to: prev + rate * (prev + 1e-9). */
  function Grow(prev: real, rate: real): real {
    prev + rate * (prev + DivisionGuard)
  }

  lemma RateInverse(prev: real, cur: real)
    requires prev + DivisionGuard != 0.0
    ensures Grow(prev, Rate(prev, cur)) == cur
  {
  }

  /** No information is lost: the first value and the changes give the series back. */
  lemma {:induction false} ReconstructChanges(p: seq<real>)
    requires |p| >= 1 && Divisible(p)
    ensures Reconstruct(p[0], Changes(p)) == p
  {
    if |p| >= 2 {
      var r := Changes(p);
      var tail := p[1..];
      assert r[1..] == Changes(tail) by {
        ChangesOfTail(p);
      }
      assert r != [];
      RateInverse(p[0], p[1]);
      ReconstructChanges(tail);
      calc {
        Reconstruct(p[0], r);
        [p[0]] + Reconstruct(p[1], r[1..]);
        [p[0]] + Reconstruct(tail[0], Changes(tail));
        [p[0]] + tail;
        p;
      }
    }
  }

  lemma ChangesOfTail(p: seq<real>)
    requires |p| >= 2 && Divisible(p)
    ensures Changes(p)[1..] == Changes(p[1..])
  {
    var a, b := Changes(p)[1..], Changes(p[1..]);
    assert |a| == |b|;
    forall t | 0 <= t < |a|
      ensures a[t] == b[t]
    {
      assert a[t] == Rate(p[t + 1], p[t + 2]);
    }
  }

  function Closes(rows: seq<PriceRow>): (c: seq<real>)
    ensures |c| == |rows| && forall i :: 0 <= i < |rows| ==> c[i] == rows[i].close
  {
    seq(|rows|, i requires 0 <= i < |rows| => rows[i].close)
  }

  function Volumes(rows: seq<PriceRow>): (v: seq<real>)
    ensures |v| == |rows| && forall i :: 0 <= i < |rows| ==> v[i] == rows[i].volume
  {
    seq(|rows|, i requires 0 <= i < |rows| => rows[i].volume)
  }

  predicate DivisibleRows(rows: seq<PriceRow>) {
    Divisible(Closes(rows)) && Divisible(Volumes(rows))
  }

  /** np.column_stack([returns, vol_changes]). */
  function Features(rows: seq<PriceRow>): (fs: seq<Feature>)
    requires DivisibleRows(rows)
    ensures |fs| == if |rows| == 0 then 0 else |rows| - 1
    ensures forall t :: 0 <= t < |fs| ==>
      fs[t] == Feature(Rate(rows[t].close, rows[t + 1].close), Rate(rows[t].volume, rows[t + 1].volume))
  {
    var r := Changes(Closes(rows));
    var v := Changes(Volumes(rows));
    seq(|r|, t requires 0 <= t < |r| => Feature(r[t], v[t]))
  }

  function Rets(fs: seq<Feature>): (r: seq<real>)
    ensures |r| == |fs|
  {
    seq(|fs|, t requires 0 <= t < |fs| => fs[t].ret)
  }

  function VolChanges(fs: seq<Feature>): (r: seq<real>)
    ensures |r| == |fs|
  {
    seq(|fs|, t requires 0 <= t < |fs| => fs[t].volChange)
  }

  // ---- segment statistics ----

  function Sum(xs: seq<real>): real {
    if xs == [] then 0.0 else Sum(xs[..|xs| - 1]) + xs[|xs| - 1]
  }

  function Mean(xs: seq<real>): real
    requires |xs| > 0
  {
    Sum(xs) / (|xs| as real)
  }

  function SquaredDeviations(xs: seq<real>, m: real): (s: real)
    ensures s >= 0.0
  {
    if xs == [] then 0.0
    else
      var d := xs[|xs| - 1] - m;
      SquaredDeviations(xs[..|xs| - 1], m) + d * d
  }

  /** np.std(xs) ** 2: the population variance (ddof = 0), never negative. */
  function Variance(xs: seq<real>): (v: real)
    requires |xs| > 0
    ensures v >= 0.0
  {
    SquaredDeviations(xs, Mean(xs)) / (|xs| as real)
  }

  predicate Constant(xs: seq<real>, c: real) {
    forall i :: 0 <= i < |xs| ==> xs[i] == c
  }

  lemma {:induction false} SumOfConstant(xs: seq<real>, c: real)
    requires Constant(xs, c)
    ensures Sum(xs) == (|xs| as real) * c
  {
    if xs != [] {
      SumOfConstant(xs[..|xs| - 1], c);
    }
  }

  lemma {:induction false} DeviationsFromConstant(xs: seq<real>, c: real)
    requires Constant(xs, c)
    ensures SquaredDeviations(xs, c) == 0.0
  {
    if xs != [] {
      DeviationsFromConstant(xs[..|xs| - 1], c);
    }
  }

  /** A series that does not move has no spread. */
  lemma VarianceOfConstant(xs: seq<real>, c: real)
    requires |xs| > 0 && Constant(xs, c)
    ensures Variance(xs) == 0.0
  {
    SumOfConstant(xs, c);
    assert Mean(xs) == c;
    DeviationsFromConstant(xs, c);
  }

  ghost predicate NonNegativeRoot(root: real -> real) {
    forall x :: 0.0 <= x ==> 0.0 <= root(x)
  }

  /** sqrt(std_r ** 2 + std_v ** 2) of the features in [lo, hi). */
  function SegmentVolatility(fs: seq<Feature>, lo: int, hi: int, root: real -> real): (v: real)
    requires 0 <= lo < hi <= |fs| && NonNegativeRoot(root)
    ensures v >= 0.0
  {
    var seg := fs[lo..hi];
    root(Variance(Rets(seg)) + Variance(VolChanges(seg)))
  }

  // ---- breakpoints ----

  predicate NonDecreasing(b: seq<nat>) {
    forall i, j :: 0 <= i < j < |b| ==> b[i] <= b[j]
  }

  predicate Bounded(b: seq<nat>, n: nat) {
    forall k :: 0 <= k < |b| ==> b[k] <= n
  }

  /** What Binseg promises: strictly increasing ends, the last one the feature count. */
  predicate WellFormedBreakpoints(b: seq<nat>, n: nat) {
    (forall i, j :: 0 <= i < j < |b| ==> b[i] < b[j]) && |b| > 0 && b[|b| - 1] == n
  }

  /** Strictly increasing ends, the last one n, are ordered and bounded by n. */
  lemma BreakpointsOrdered(b: seq<nat>, n: nat)
    requires WellFormedBreakpoints(b, n)
    ensures NonDecreasing(b) && Bounded(b, n)
  {
    forall k | 0 <= k < |b| ensures b[k] <= n {
      if k < |b| - 1 {
        assert b[k] < b[|b| - 1];
      }
    }
  }

  ghost predicate ValidSegmenter(segment: Segmenter) {
    forall fs, k :: segment(fs, k).Some? ==> WellFormedBreakpoints(segment(fs, k).value, |fs|)
  }

  /** Start of segment k: 0 for the first, the previous end afterwards. */
  function SegStart(b: seq<nat>, k: int): nat
    requires 0 <= k <= |b|
  {
    if k == 0 then 0 else b[k - 1]
  }

  /** Index i falls in segment k. */
  predicate InSegment(b: seq<nat>, k: int, i: int) {
    0 <= k < |b| && SegStart(b, k) <= i < b[k]
  }

  /** Every index before the last end lies in some segment. */
  lemma Covered(b: seq<nat>, i: int)
    requires NonDecreasing(b) && |b| > 0 && 0 <= i < b[|b| - 1]
    ensures exists k :: InSegment(b, k, i)
  {
    var k := 0;
    while b[k] <= i
      invariant 0 <= k < |b| && SegStart(b, k) <= i
      decreases |b| - k
    {
      k := k + 1;
    }
    assert InSegment(b, k, i);
  }

  /** raw holds, in each of the first k segments, that segment's volatility. */
  ghost predicate SegsFilled(raw: seq<real>, fs: seq<Feature>, bkps: seq<nat>, root: real -> real, k: int)
    requires 0 <= k <= |bkps| && Bounded(bkps, |fs|) && NonNegativeRoot(root)
  {
    forall j, i :: 0 <= j < k && InSegment(bkps, j, i) ==>
      0 <= i < |raw| && raw[i] == SegmentVolatility(fs, SegStart(bkps, j), bkps[j], root)
  }

  predicate ZeroFrom(raw: seq<real>, from: int) {
    forall i :: 0 <= i < |raw| && from <= i ==> raw[i] == 0.0
  }

  predicate NonNegative(raw: seq<real>) {
    forall i :: 0 <= i < |raw| ==> raw[i] >= 0.0
  }

  /** raw holds, after the first k segments, each one's volatility, and 0 from `from` on. */
  ghost predicate FilledUpTo(raw: seq<real>, fs: seq<Feature>, bkps: seq<nat>, root: real -> real, k: int, from: int)
    requires 0 <= k <= |bkps| && Bounded(bkps, |fs|) && NonNegativeRoot(root)
  {
    SegsFilled(raw, fs, bkps, root, k) && ZeroFrom(raw, from) && NonNegative(raw)
  }

  /** Filling segment k with its volatility extends what is filled by one segment. */
  lemma FillStep(before: seq<real>, after: seq<real>, fs: seq<Feature>, bkps: seq<nat>, root: real -> real, k: int)
    requires NonDecreasing(bkps) && Bounded(bkps, |fs|) && NonNegativeRoot(root) && 0 <= k < |bkps|
    requires |before| == |fs| && FilledUpTo(before, fs, bkps, root, k, SegStart(bkps, k))
    requires SegStart(bkps, k) < bkps[k]
    requires |after| == |before|
    requires forall i :: 0 <= i < |after| ==>
      after[i] == if SegStart(bkps, k) <= i < bkps[k] then SegmentVolatility(fs, SegStart(bkps, k), bkps[k], root) else before[i]
    ensures FilledUpTo(after, fs, bkps, root, k + 1, SegStart(bkps, k + 1))
  {
    var lo, hi := SegStart(bkps, k), bkps[k];
    forall j, i | 0 <= j < k + 1 && InSegment(bkps, j, i)
      ensures 0 <= i < |after| && after[i] == SegmentVolatility(fs, SegStart(bkps, j), bkps[j], root)
    {
      if j < k {
        assert bkps[j] <= bkps[k - 1];
        assert i < lo;
      }
    }
    assert SegsFilled(after, fs, bkps, root, k + 1);
    forall i | 0 <= i < |after| && hi <= i ensures after[i] == 0.0 {
      assert before[i] == 0.0;
    }
    assert ZeroFrom(after, hi);
    forall i | 0 <= i < |after| ensures after[i] >= 0.0 {
      assert before[i] >= 0.0;
    }
  }

  /** An empty segment k leaves everything as it is. */
  lemma SkipStep(raw: seq<real>, fs: seq<Feature>, bkps: seq<nat>, root: real -> real, k: int)
    requires NonDecreasing(bkps) && Bounded(bkps, |fs|) && NonNegativeRoot(root) && 0 <= k < |bkps|
    requires FilledUpTo(raw, fs, bkps, root, k, SegStart(bkps, k)) && SegStart(bkps, k) >= bkps[k]
    ensures FilledUpTo(raw, fs, bkps, root, k + 1, SegStart(bkps, k))
    ensures SegStart(bkps, k + 1) == SegStart(bkps, k)
  {
    if k > 0 {
      assert bkps[k - 1] <= bkps[k];
    }
  }

  /**
   * The risk_raw loop: each non-empty segment [start, end) is filled with its
   * volatility; an empty one is skipped without moving start; indices after
   * the last end keep the initial 0.
   */
  method BroadcastVolatility(fs: seq<Feature>, bkps: seq<nat>, root: real -> real) returns (raw: seq<real>)
    requires NonDecreasing(bkps) && Bounded(bkps, |fs|) && NonNegativeRoot(root)
    ensures |raw| == |fs|
    ensures forall i :: 0 <= i < |raw| ==> raw[i] >= 0.0
    ensures forall k, i :: InSegment(bkps, k, i) ==>
      raw[i] == SegmentVolatility(fs, SegStart(bkps, k), bkps[k], root)
    ensures forall i :: 0 <= i < |raw| && (|bkps| == 0 || bkps[|bkps| - 1] <= i) ==> raw[i] == 0.0
    ensures raw == Raw(fs, bkps, root)
  {
    var a := new real[|fs|](_ => 0.0);
    var start: nat := 0;
    var k := 0;
    while k < |bkps|
      invariant 0 <= k <= |bkps| && start == SegStart(bkps, k) && start <= a.Length == |fs|
      invariant FilledUpTo(a[..], fs, bkps, root, k, start)
    {
      var end := bkps[k];
      if end - start > 0 {
        var v := SegmentVolatility(fs, start, end, root);
        ghost var before := a[..];
        forall i | start <= i < end {
          a[i] := v;
        }
        FillStep(before, a[..], fs, bkps, root, k);
        start := end;
      } else {
        SkipStep(a[..], fs, bkps, root, k);
      }
      k := k + 1;
    }
    raw := a[..];
    FilledIsRaw(fs, bkps, root, raw);
  }

  /** A series filled through the last segment holds the segment values, the zero tail, and is Raw. */
  lemma FilledIsRaw(fs: seq<Feature>, bkps: seq<nat>, root: real -> real, raw: seq<real>)
    requires NonDecreasing(bkps) && Bounded(bkps, |fs|) && NonNegativeRoot(root) && |raw| == |fs|
    requires FilledUpTo(raw, fs, bkps, root, |bkps|, SegStart(bkps, |bkps|))
    ensures forall i :: 0 <= i < |raw| ==> raw[i] >= 0.0
    ensures forall k, i :: InSegment(bkps, k, i) ==> raw[i] == SegmentVolatility(fs, SegStart(bkps, k), bkps[k], root)
    ensures forall i :: 0 <= i < |raw| && (|bkps| == 0 || bkps[|bkps| - 1] <= i) ==> raw[i] == 0.0
    ensures raw == Raw(fs, bkps, root)
  {
    RawCharacterised(fs, bkps, root, raw);
  }

  /** The volatility index i gets from segment k on: that of the first segment ending after i, 0 past the last end. */
  function RawFrom(fs: seq<Feature>, b: seq<nat>, root: real -> real, i: nat, k: nat): real
    requires Bounded(b, |fs|) && NonNegativeRoot(root) && k <= |b| && SegStart(b, k) <= i
    decreases |b| - k
  {
    if k == |b| then 0.0
    else if i < b[k] then SegmentVolatility(fs, SegStart(b, k), b[k], root)
    else RawFrom(fs, b, root, i, k + 1)
  }

  /** risk_raw as a value: each index carries the volatility of the segment it falls in. */
  function Raw(fs: seq<Feature>, b: seq<nat>, root: real -> real): (raw: seq<real>)
    requires Bounded(b, |fs|) && NonNegativeRoot(root)
    ensures |raw| == |fs|
  {
    seq(|fs|, i requires 0 <= i < |fs| => RawFrom(fs, b, root, i, 0))
  }

  lemma {:induction false} RawFromSegment(fs: seq<Feature>, b: seq<nat>, root: real -> real, i: nat, k: nat, j: nat)
    requires NonDecreasing(b) && Bounded(b, |fs|) && NonNegativeRoot(root)
    requires k <= j && InSegment(b, j, i) && SegStart(b, k) <= i
    ensures RawFrom(fs, b, root, i, k) == SegmentVolatility(fs, SegStart(b, j), b[j], root)
    decreases j - k
  {
    if k < j {
      assert b[k] <= b[j - 1];
      RawFromSegment(fs, b, root, i, k + 1, j);
    }
  }

  lemma {:induction false} RawFromBeyond(fs: seq<Feature>, b: seq<nat>, root: real -> real, i: nat, k: nat)
    requires NonDecreasing(b) && Bounded(b, |fs|) && NonNegativeRoot(root)
    requires k <= |b| && SegStart(b, k) <= i && (|b| == 0 || b[|b| - 1] <= i)
    ensures RawFrom(fs, b, root, i, k) == 0.0
    decreases |b| - k
  {
    if k < |b| {
      assert b[k] <= b[|b| - 1];
      RawFromBeyond(fs, b, root, i, k + 1);
    }
  }

  /**
   * Raw is what the risk_raw loop is specified to build: the volatility of its
   * segment at every index of a segment, 0 past the last end.
   */
  lemma RawSegments(fs: seq<Feature>, b: seq<nat>, root: real -> real)
    requires NonDecreasing(b) && Bounded(b, |fs|) && NonNegativeRoot(root)
    ensures forall k, i :: InSegment(b, k, i) ==> Raw(fs, b, root)[i] == SegmentVolatility(fs, SegStart(b, k), b[k], root)
    ensures forall i :: 0 <= i < |fs| && (|b| == 0 || b[|b| - 1] <= i) ==> Raw(fs, b, root)[i] == 0.0
  {
    forall k, i | InSegment(b, k, i)
      ensures Raw(fs, b, root)[i] == SegmentVolatility(fs, SegStart(b, k), b[k], root)
    {
      RawFromSegment(fs, b, root, i, 0, k);
    }
    forall i | 0 <= i < |fs| && (|b| == 0 || b[|b| - 1] <= i)
      ensures Raw(fs, b, root)[i] == 0.0
    {
      RawFromBeyond(fs, b, root, i, 0);
    }
  }

  /** Any series with the segment values and the zero tail is Raw. */
  lemma RawCharacterised(fs: seq<Feature>, b: seq<nat>, root: real -> real, raw: seq<real>)
    requires NonDecreasing(b) && Bounded(b, |fs|) && NonNegativeRoot(root) && |raw| == |fs|
    requires forall k, i :: InSegment(b, k, i) ==> raw[i] == SegmentVolatility(fs, SegStart(b, k), b[k], root)
    requires forall i :: 0 <= i < |raw| && (|b| == 0 || b[|b| - 1] <= i) ==> raw[i] == 0.0
    ensures raw == Raw(fs, b, root)
  {
    var r := Raw(fs, b, root);
    RawSegments(fs, b, root);
    forall i | 0 <= i < |raw| ensures raw[i] == r[i] {
      if |b| > 0 && i < b[|b| - 1] {
        Covered(b, i);
      }
    }
  }

  // ---- normalisation ----

  function SeqMin(xs: seq<real>): (m: real)
    requires |xs| > 0
    ensures m in xs && forall i :: 0 <= i < |xs| ==> m <= xs[i]
  {
    if |xs| == 1 then xs[0]
    else
      var m := SeqMin(xs[..|xs| - 1]);
      assert m in xs[..|xs| - 1];
      if xs[|xs| - 1] < m then xs[|xs| - 1] else m
  }

  function SeqMax(xs: seq<real>): (m: real)
    requires |xs| > 0
    ensures m in xs && forall i :: 0 <= i < |xs| ==> xs[i] <= m
  {
    if |xs| == 1 then xs[0]
    else
      var m := SeqMax(xs[..|xs| - 1]);
      assert m in xs[..|xs| - 1];
      if xs[|xs| - 1] > m then xs[|xs| - 1] else m
  }

  predicate InRange(xs: seq<real>, lo: real, hi: real) {
    forall i :: 0 <= i < |xs| ==> lo <= xs[i] <= hi
  }

  lemma DivideMonotone(a: real, b: real, d: real)
    requires a <= b && d > 0.0
    ensures a / d <= b / d
  {
  }

  lemma DivideBounds(a: real, d: real)
    requires 0.0 <= a <= d && d > 0.0
    ensures 0.0 <= a / d <= 1.0
    ensures a / d == 0.0 <==> a == 0.0
    ensures a / d == 1.0 <==> a == d
  {
    DivideMonotone(0.0, a, d);
    DivideMonotone(a, d, d);
  }

  /**
   * (raw - min) / (max - min), or 0.5 everywhere when max - min < 1e-9.
   * Values land in [0, 1], order is kept, and outside the degenerate case
   * exactly the minima map to 0 and the maxima to 1.
   */
  function MinMaxScale(raw: seq<real>): (r: seq<real>)
    requires |raw| > 0
    ensures |r| == |raw| && InRange(r, 0.0, 1.0)
    ensures SeqMax(raw) - SeqMin(raw) < FlatRange ==> Constant(r, Midpoint)
    ensures SeqMax(raw) - SeqMin(raw) >= FlatRange ==> PinsExtremes(raw, r, SeqMin(raw), SeqMax(raw))
    ensures OrderKept(raw, r)
  {
    var lo, hi := SeqMin(raw), SeqMax(raw);
    if hi - lo < FlatRange then seq(|raw|, _ => Midpoint)
    else
      RescaleBounds(raw, lo, hi);
      RescaleMonotone(raw, lo, hi - lo);
      Rescale(raw, lo, hi - lo)
  }

  /** Exactly the values equal to lo map to 0 and exactly those equal to hi map to 1. */
  predicate PinsExtremes(raw: seq<real>, r: seq<real>, lo: real, hi: real)
    requires |r| == |raw|
  {
    forall i :: 0 <= i < |r| ==> (r[i] == 0.0 <==> raw[i] == lo) && (r[i] == 1.0 <==> raw[i] == hi)
  }

  /** r orders its indices no differently from raw. */
  predicate OrderKept(raw: seq<real>, r: seq<real>)
    requires |r| == |raw|
  {
    forall i, j :: 0 <= i < |r| && 0 <= j < |r| && raw[i] <= raw[j] ==> r[i] <= r[j]
  }

  /** (raw - lo) / d elementwise. */
  function Rescale(raw: seq<real>, lo: real, d: real): (r: seq<real>)
    requires d > 0.0
    ensures |r| == |raw| && forall i :: 0 <= i < |r| ==> r[i] == (raw[i] - lo) / d
  {
    seq(|raw|, i requires 0 <= i < |raw| => (raw[i] - lo) / d)
  }

  /** Values between lo and hi land in [0, 1], exactly lo at 0 and exactly hi at 1. */
  lemma RescaleBounds(raw: seq<real>, lo: real, hi: real)
    requires lo < hi && InRange(raw, lo, hi)
    ensures InRange(Rescale(raw, lo, hi - lo), 0.0, 1.0)
    ensures PinsExtremes(raw, Rescale(raw, lo, hi - lo), lo, hi)
  {
    var r := Rescale(raw, lo, hi - lo);
    forall i | 0 <= i < |r|
      ensures 0.0 <= r[i] <= 1.0 && (r[i] == 0.0 <==> raw[i] == lo) && (r[i] == 1.0 <==> raw[i] == hi)
    {
      DivideBounds(raw[i] - lo, hi - lo);
    }
  }

  /** Rescaling keeps the order of the values. */
  lemma RescaleMonotone(raw: seq<real>, lo: real, d: real)
    requires d > 0.0
    ensures OrderKept(raw, Rescale(raw, lo, d))
  {
    var r := Rescale(raw, lo, d);
    forall i, j | 0 <= i < |r| && 0 <= j < |r| && raw[i] <= raw[j]
      ensures r[i] <= r[j]
    {
      DivideMonotone(raw[i] - lo, raw[j] - lo, d);
    }
  }

  // ---- smoothing ----

  /** y is the EMA of x with weight Alpha, seeded with x[0]. */
  predicate IsEma(x: seq<real>, y: seq<real>) {
    |y| == |x|
    && (|x| > 0 ==> y[0] == x[0])
    && forall i :: 0 < i < |x| ==> y[i] == Alpha * x[i] + (1.0 - Alpha) * y[i - 1]
  }

  /** The EMA of x with weight Alpha, built front to back. */
  function EmaOf(x: seq<real>): (y: seq<real>)
    ensures IsEma(x, y)
  {
    if |x| <= 1 then x
    else
      var init := EmaOf(x[..|x| - 1]);
      assert forall i :: 0 <= i < |x| - 1 ==> x[..|x| - 1][i] == x[i];
      init + [Alpha * x[|x| - 1] + (1.0 - Alpha) * init[|init| - 1]]
  }

  /** The EMA loop. smoothing_alpha is accepted and ignored: the weight is always Alpha. */
  method Smooth(scaled: seq<real>, smoothingAlpha: real) returns (smoothed: seq<real>)
    requires |scaled| > 0
    ensures IsEma(scaled, smoothed)
    ensures smoothed == EmaOf(scaled)
  {
    var a := new real[|scaled|](_ => 0.0);
    a[0] := scaled[0];
    var i := 1;
    while i < |scaled|
      invariant 1 <= i <= |scaled| && a.Length == |scaled|
      invariant a[0] == scaled[0]
      invariant forall j :: 0 < j < i ==> a[j] == Alpha * scaled[j] + (1.0 - Alpha) * a[j - 1]
    {
      a[i] := Alpha * scaled[i] + (1.0 - Alpha) * a[i - 1];
      i := i + 1;
    }
    smoothed := a[..];
    EmaUnique(scaled, smoothed, EmaOf(scaled));
  }

  /** The EMA is a convex combination: it never leaves the input's bounds. */
  lemma EmaBounds(x: seq<real>, y: seq<real>, lo: real, hi: real)
    requires IsEma(x, y) && InRange(x, lo, hi)
    ensures InRange(y, lo, hi)
  {
    var i := 0;
    while i < |y|
      invariant 0 <= i <= |y|
      invariant InRange(y[..i], lo, hi)
    {
      assert i > 0 ==> y[..i][i - 1] == y[i - 1];
      i := i + 1;
    }
    assert y[..i] == y;
  }

  /** The EMA of a series is unique. */
  lemma EmaUnique(x: seq<real>, y: seq<real>, z: seq<real>)
    requires IsEma(x, y) && IsEma(x, z)
    ensures y == z
  {
    var i := 0;
    while i < |y|
      invariant 0 <= i <= |y|
      invariant y[..i] == z[..i]
    {
      assert i > 0 ==> y[i - 1] == y[..i][i - 1] == z[..i][i - 1] == z[i - 1];
      i := i + 1;
    }
    assert y == y[..i] && z == z[..i];
  }

  // ---- clipping and scaling ----

  /** Values below 1e-5 become 0; everything is multiplied by 100. */
  function ClipAndScale(s: seq<real>): (r: seq<real>)
    ensures |r| == |s|
    ensures forall i :: 0 <= i < |s| ==> (r[i] == 0.0 <==> s[i] < ClipFloor)
    ensures forall i :: 0 <= i < |s| && s[i] >= ClipFloor ==> r[i] == Percent * s[i]
    ensures InRange(s, 0.0, 1.0) ==> InRange(r, 0.0, Percent)
  {
    seq(|s|, i requires 0 <= i < |s| => if s[i] < ClipFloor then 0.0 else Percent * s[i])
  }

  // ---- the whole computation ----

  /** Every non-empty segment of the breakpoints has the same volatility. */
  ghost predicate UniformVolatility(fs: seq<Feature>, b: seq<nat>, root: real -> real)
    requires Bounded(b, |fs|) && NonNegativeRoot(root)
  {
    forall j, k :: 0 <= j < |b| && 0 <= k < |b| && SegStart(b, j) < b[j] && SegStart(b, k) < b[k] ==>
      SegmentVolatility(fs, SegStart(b, j), b[j], root) == SegmentVolatility(fs, SegStart(b, k), b[k], root)
  }

  /** With uniform segment volatility and full coverage, the raw series is flat. */
  lemma UniformRawIsFlat(fs: seq<Feature>, b: seq<nat>, root: real -> real, raw: seq<real>)
    requires NonDecreasing(b) && |b| > 0 && b[|b| - 1] == |fs| && |fs| > 0 && NonNegativeRoot(root)
    requires Bounded(b, |fs|) && UniformVolatility(fs, b, root) && |raw| == |fs|
    requires forall k, i :: InSegment(b, k, i) ==> raw[i] == SegmentVolatility(fs, SegStart(b, k), b[k], root)
    ensures Constant(raw, raw[0])
  {
    Covered(b, 0);
    var k0 :| InSegment(b, k0, 0);
    forall i | 0 <= i < |raw|
      ensures raw[i] == raw[0]
    {
      Covered(b, i);
      var k :| InSegment(b, k, i);
      assert SegStart(b, k) < b[k] && SegStart(b, k0) < b[k0];
    }
  }

  /** The output frame: row i is dated like input row i + 1 (the first is lost to pct_change). */
  function Tagged(symbol: string, rows: seq<PriceRow>, risk: seq<real>): (r: seq<RiskRow>)
    requires |risk| == |rows| - 1
    ensures |r| == |risk|
    ensures forall i :: 0 <= i < |r| ==> r[i].symbol == symbol && r[i].date == rows[i + 1].date && r[i].riskValue == risk[i]
  {
    seq(|risk|, i requires 0 <= i < |risk| => RiskRow(symbol, rows[i + 1].date, risk[i]))
  }

  /**
   * The risk series as a value: the clipped percent of the EMA of the
   * min-max-scaled segment volatility. Every value is in [0, 100], and all are
   * 50 when all segments are equally volatile.
   */
  function RiskOf(fs: seq<Feature>, b: seq<nat>, root: real -> real): (risk: seq<real>)
    requires WellFormedBreakpoints(b, |fs|) && NonDecreasing(b) && Bounded(b, |fs|) && |fs| > 0 && NonNegativeRoot(root)
    ensures |risk| == |fs| && InRange(risk, 0.0, Percent)
    ensures UniformVolatility(fs, b, root) ==> Constant(risk, Percent * Midpoint)
  {
    var raw := Raw(fs, b, root);
    var scaled := MinMaxScale(raw);
    var smoothed := EmaOf(scaled);
    EmaBounds(scaled, smoothed, 0.0, 1.0);
    assert UniformVolatility(fs, b, root) ==> InRange(smoothed, Midpoint, Midpoint) by {
      if UniformVolatility(fs, b, root) {
        RawSegments(fs, b, root);
        UniformRawIsFlat(fs, b, root, raw);
        assert SeqMax(raw) == raw[0] == SeqMin(raw);
        EmaBounds(scaled, smoothed, Midpoint, Midpoint);
      }
    }
    ClipAndScale(smoothed)
  }

  /**
   * The series part of calculate_risk_scores: volatility per segment, min-max
   * scaling, smoothing, clipping and scaling to percent. Every value is in
   * [0, 100], and all are 50 when all segments are equally volatile.
   */
  method RiskSeries(fs: seq<Feature>, b: seq<nat>, root: real -> real, smoothingAlpha: real) returns (risk: seq<real>)
    requires WellFormedBreakpoints(b, |fs|) && NonDecreasing(b) && Bounded(b, |fs|) && |fs| > 0 && NonNegativeRoot(root)
    ensures |risk| == |fs| && InRange(risk, 0.0, Percent)
    ensures UniformVolatility(fs, b, root) ==> Constant(risk, Percent * Midpoint)
    ensures risk == RiskOf(fs, b, root)
  {
    var raw := BroadcastVolatility(fs, b, root);
    var scaled := MinMaxScale(raw);
    var smoothed := Smooth(scaled, smoothingAlpha);
    risk := ClipAndScale(smoothed);
    assert risk == RiskOf(fs, b, root);
  }

  /**
   * calculate_risk_scores as a value. Missing columns and a failing change-point search
   * are errors; fewer than two rows give no rows; otherwise row i of the
   * output is input row i + 1 tagged with the symbol and a value in [0, 100],
   * 0 exactly where the smoothed value fell below 1e-5, and 50 throughout
   * when all segments are equally volatile.
   */
  function RiskScores(df: PriceFrame, symbol: string, segment: Segmenter, root: real -> real, nBkps: nat)
    : (result: Result<seq<RiskRow>, EngineError>)
    requires ValidSegmenter(segment) && NonNegativeRoot(root) && DivisibleRows(df.rows)
    ensures !HasPriceColumns(df) <==> result == Failure(MissingColumns)
    ensures HasPriceColumns(df) && |df.rows| < 2 ==> result == Success([])
    ensures HasPriceColumns(df) && |df.rows| >= 2 ==>
      (result == Failure(SegmentationFailed) <==> segment(Features(df.rows), nBkps).None?)
    ensures result.Success? ==>
      |result.value| == (if |df.rows| < 2 then 0 else |df.rows| - 1)
      && forall i :: 0 <= i < |result.value| ==>
           result.value[i].symbol == symbol && result.value[i].date == df.rows[i + 1].date
           && 0.0 <= result.value[i].riskValue <= Percent
    ensures result.Success? && |df.rows| >= 2 ==>
      var fs := Features(df.rows);
      var b := segment(fs, nBkps);
      b.Some? && Bounded(b.value, |fs|) && UniformVolatility(fs, b.value, root) ==>
        forall i :: 0 <= i < |result.value| ==> result.value[i].riskValue == Percent * Midpoint
  {
    if !HasPriceColumns(df) then Failure(MissingColumns)
    else if |df.rows| < 2 then Success([])
    else
      var fs := Features(df.rows);
      var bkps := segment(fs, nBkps);
      if bkps.None? then Failure(SegmentationFailed)
      else
        Success(ScoredRows(symbol, df.rows, fs, bkps.value, root))
  }

  /** The rows of a frame with at least two rows, given its features fs and the breakpoints b found for them. */
  function ScoredRows(symbol: string, rows: seq<PriceRow>, fs: seq<Feature>, b: seq<nat>, root: real -> real): (r: seq<RiskRow>)
    requires |fs| == |rows| - 1 && |fs| > 0 && WellFormedBreakpoints(b, |fs|) && NonNegativeRoot(root)
    ensures |r| == |fs|
    ensures forall i :: 0 <= i < |r| ==>
      r[i].symbol == symbol && r[i].date == rows[i + 1].date && 0.0 <= r[i].riskValue <= Percent
    ensures Bounded(b, |fs|) && UniformVolatility(fs, b, root) ==> forall i :: 0 <= i < |r| ==> r[i].riskValue == Percent * Midpoint
  {
    BreakpointsOrdered(b, |fs|);
    var risk := RiskOf(fs, b, root);
    var r := Tagged(symbol, rows, risk);
    assert forall i :: 0 <= i < |r| ==> r[i].riskValue == risk[i];
    r
  }

  /**
   * calculate_risk_scores. Missing columns and a failing change-point search
   * are errors; fewer than two rows give no rows; otherwise row i of the
   * output is input row i + 1 tagged with the symbol and a value in [0, 100],
   * 0 exactly where the smoothed value fell below 1e-5, and 50 throughout
   * when all segments are equally volatile. The rows are RiskScores's.
   */
  method CalculateRiskScores(df: PriceFrame, symbol: string, segment: Segmenter, root: real -> real,
                             nBkps: nat, smoothingAlpha: real)
    returns (result: Result<seq<RiskRow>, EngineError>)
    requires ValidSegmenter(segment) && NonNegativeRoot(root) && DivisibleRows(df.rows)
    ensures !HasPriceColumns(df) <==> result == Failure(MissingColumns)
    ensures HasPriceColumns(df) && |df.rows| < 2 ==> result == Success([])
    ensures HasPriceColumns(df) && |df.rows| >= 2 ==>
      (result == Failure(SegmentationFailed) <==> segment(Features(df.rows), nBkps).None?)
    ensures result.Success? ==>
      |result.value| == (if |df.rows| < 2 then 0 else |df.rows| - 1)
      && forall i :: 0 <= i < |result.value| ==>
           result.value[i].symbol == symbol && result.value[i].date == df.rows[i + 1].date
           && 0.0 <= result.value[i].riskValue <= Percent
    ensures result.Success? && |df.rows| >= 2 ==>
      var fs := Features(df.rows);
      var b := segment(fs, nBkps);
      b.Some? && Bounded(b.value, |fs|) && UniformVolatility(fs, b.value, root) ==>
        forall i :: 0 <= i < |result.value| ==> result.value[i].riskValue == Percent * Midpoint
    ensures result == RiskScores(df, symbol, segment, root, nBkps)
  {
    if !HasPriceColumns(df) {
      result := Failure(MissingColumns);
    } else if |df.rows| < 2 {
      result := Success([]);
    } else {
      var fs := Features(df.rows);
      var bkps := segment(fs, nBkps);
      if bkps.None? {
        result := Failure(SegmentationFailed);
      } else {
        var rows := ScoreRows(symbol, df.rows, fs, bkps.value, root, smoothingAlpha);
        result := Success(rows);
      }
    }
  }

  /** The tail of calculate_risk_scores once the breakpoints are known: the risk series, tagged onto the rows. */
  method ScoreRows(symbol: string, rows: seq<PriceRow>, fs: seq<Feature>, b: seq<nat>, root: real -> real, smoothingAlpha: real)
    returns (r: seq<RiskRow>)
    requires |fs| == |rows| - 1 && |fs| > 0 && WellFormedBreakpoints(b, |fs|) && NonNegativeRoot(root)
    ensures r == ScoredRows(symbol, rows, fs, b, root)
  {
    BreakpointsOrdered(b, |fs|);
    var risk := RiskSeries(fs, b, root, smoothingAlpha);
    r := Tagged(symbol, rows, risk);
  }
}
