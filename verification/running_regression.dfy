/**
 Simple linear regression of y on x in one pass: a moment accumulator for
 each variable plus the co-moment S_xy, the sum of products of paired
 deviations from the two means.  `push` updates S_xy with the means as
 they were before the pair arrives, then pushes x and y into their
 accumulators.

 `Tracks(r, xs, ys)` relates a state to the ghost history of pairs it has
 seen.
 */
module RunningRegression {
  import opened Deviations
  import opened Outcomes
  import RunningStats

  type Stats = RunningStats.Stats

  datatype Regression = Regression(xStats: Stats, yStats: Stats, sxy: real, n: nat)

  /** The state `clear` (and the constructor) establishes. */
  function Clear(): (r: Regression)
    ensures r.xStats == RunningStats.Clear() && r.yStats == RunningStats.Clear()
    ensures r.sxy == 0.0 && r.n == 0
  {
    Regression(RunningStats.Clear(), RunningStats.Clear(), 0.0, 0)
  }

  /** One `push(x, y)`: S_xy moves by (mean_x - x)(mean_y - y) n / (n + 1) before each accumulator takes its value. */
  function Push(r: Regression, x: real, y: real): (r': Regression)
    ensures r'.n == r.n + 1 && r'.xStats.n == r.xStats.n + 1 && r'.yStats.n == r.yStats.n + 1
  {
    var sxy := r.sxy + CoStep(RunningStats.Mean(r.xStats), RunningStats.Mean(r.yStats), r.n, x, y);
    Regression(RunningStats.Push(r.xStats, x), RunningStats.Push(r.yStats, y), sxy, r.n + 1)
  }

  /** The pairs (xs[i], ys[i]) pushed one after another, first to last. */
  function PushAll(r: Regression, xs: seq<real>, ys: seq<real>): (r': Regression)
    requires |xs| == |ys|
    ensures r'.n == r.n + |xs|
    decreases |xs|
  {
    if |xs| == 0 then r else Push(PushAll(r, Init(xs), Init(ys)), Last(xs), Last(ys))
  }

  /**
   `push(double[] x, double[] y)`: arrays of different lengths are refused
   before anything is pushed; otherwise the pairs are pushed in order.
   */
  method PushArrays(r: Regression, xs: seq<real>, ys: seq<real>) returns (result: Result<Regression>)
    ensures |xs| != |ys| <==> result.Failure?
    ensures |xs| == |ys| ==> result == Success(PushAll(r, xs, ys))
  {
    if |xs| != |ys| {
      return Failure("Arrays should have the same number of elements.");
    }
    var acc := r;
    var i := 0;
    while i < |xs|
      invariant 0 <= i <= |xs|
      invariant acc == PushAll(r, xs[..i], ys[..i])
    {
      AppendOne(xs[..i], xs[i]);
      AppendOne(ys[..i], ys[i]);
      assert xs[..i + 1] == xs[..i] + [xs[i]];
      assert ys[..i + 1] == ys[..i] + [ys[i]];
      acc := Push(acc, xs[i], ys[i]);
      i := i + 1;
    }
    assert xs[..i] == xs && ys[..i] == ys;
    return Success(acc);
  }

  /** S_xx, the sum of squared deviations of x, recovered as variance_x * (n - 1). */
  function Sxx(r: Regression): (sxx: real)
    requires r.xStats.n != 1
  {
    RunningStats.Variance(r.xStats) * ((r.n as real) - 1.0)
  }

  /**
   The least-squares slope S_xy / S_xx.  The variance divides by zero for
   a single value of x, and the slope by a zero S_xx.
   */
  function Slope(r: Regression): (b: real)
    requires r.xStats.n != 1 && Sxx(r) != 0.0
  {
    r.sxy / Sxx(r)
  }

  /** mean_y - slope * mean_x. */
  function Intercept(r: Regression): (c: real)
    requires r.xStats.n != 1 && Sxx(r) != 0.0
  {
    RunningStats.Mean(r.yStats) - Slope(r) * RunningStats.Mean(r.xStats)
  }

  /** The divisor of the correlation: (n - 1) stdDev_x stdDev_y. */
  function CorrelationScale(r: Regression, sqrt: real -> real): (t: real)
    requires r.xStats.n != 1 && r.yStats.n != 1
  {
    ((r.n as real) - 1.0) * (RunningStats.StdDev(r.xStats, sqrt) * RunningStats.StdDev(r.yStats, sqrt))
  }

  /** The correlation coefficient S_xy / ((n - 1) stdDev_x stdDev_y), with the square root supplied by the caller. */
  function Correlation(r: Regression, sqrt: real -> real): (rho: real)
    requires r.xStats.n != 1 && r.yStats.n != 1 && CorrelationScale(r, sqrt) != 0.0
  {
    r.sxy / CorrelationScale(r, sqrt)
  }

  /**
   `a + b`: each variable's accumulators merged, and S_xy pooled with the
   differences of the means.  Each division needs a non-empty union.
   */
  function Merge(a: Regression, b: Regression): (r: Regression)
    requires a.xStats.n + b.xStats.n > 0 && a.yStats.n + b.yStats.n > 0 && a.n + b.n > 0
    ensures r.n == a.n + b.n
    ensures r.xStats.n == a.xStats.n + b.xStats.n && r.yStats.n == a.yStats.n + b.yStats.n
  {
    var n := a.n + b.n;
    var deltaX := RunningStats.Mean(b.xStats) - RunningStats.Mean(a.xStats);
    var deltaY := RunningStats.Mean(b.yStats) - RunningStats.Mean(a.yStats);
    var sxy := a.sxy + b.sxy + Pooling(a.n, b.n, deltaX, deltaY);
    Regression(RunningStats.Merge(a.xStats, b.xStats), RunningStats.Merge(a.yStats, b.yStats), sxy, n)
  }

  // ---------------------------------------------------------------------
  // Relations to the pairs pushed

  /** Both accumulators have seen as many values as the pair count. */
  predicate Valid(r: Regression)
  {
    r.xStats.n == r.n && r.yStats.n == r.n
  }

  /** r has seen exactly the pairs (xs[i], ys[i]): each accumulator its column, and S_xy their co-moment. */
  predicate Tracks(r: Regression, xs: seq<real>, ys: seq<real>)
  {
    |xs| == |ys| == r.n &&
    RunningStats.Moments(r.xStats, xs) && RunningStats.Moments(r.yStats, ys) &&
    r.sxy == CoMoment(xs, ys)
  }

  lemma ClearTracks()
    ensures Valid(Clear()) && Tracks(Clear(), [], [])
  {
    RunningStats.ClearMoments();
    EmptySums([], []);
  }

  /** The three counts move together: push keeps them equal. */
  lemma {:induction false} PushValid(r: Regression, x: real, y: real)
    requires Valid(r)
    ensures Valid(Push(r, x, y))
  {
  }

  /** After a push, S_xy is the co-moment of the pairs seen including (x, y). */
  lemma {:induction false} PushTracks(r: Regression, xs: seq<real>, ys: seq<real>, x: real, y: real)
    requires Tracks(r, xs, ys)
    ensures Tracks(Push(r, x, y), xs + [x], ys + [y])
  {
    RunningStats.PushMoments(r.xStats, xs, x);
    RunningStats.PushMoments(r.yStats, ys, y);
    var sxy := r.sxy + CoStep(Mean(xs), Mean(ys), |xs|, x, y);
    assert Push(r, x, y) == Regression(RunningStats.Push(r.xStats, x), RunningStats.Push(r.yStats, y), sxy, |xs| + 1);
    TracksStep(r, RunningStats.Push(r.xStats, x), RunningStats.Push(r.yStats, y), sxy, xs, ys, x, y);
  }

  lemma {:induction false} TracksStep(r: Regression, sx: Stats, sy: Stats, sxy: real, xs: seq<real>, ys: seq<real>, x: real, y: real)
    requires Tracks(r, xs, ys)
    requires RunningStats.Moments(sx, xs + [x]) && RunningStats.Moments(sy, ys + [y])
    requires sxy == r.sxy + CoStep(Mean(xs), Mean(ys), |xs|, x, y)
    ensures Tracks(Regression(sx, sy, sxy, |xs| + 1), xs + [x], ys + [y])
  {
    CoMomentAppend(xs, ys, x, y);
  }

  lemma {:induction false} PushAllTracks(r: Regression, xs: seq<real>, ys: seq<real>, us: seq<real>, vs: seq<real>)
    requires Tracks(r, xs, ys) && |us| == |vs|
    ensures Tracks(PushAll(r, us, vs), xs + us, ys + vs)
    decreases |us|
  {
    if |us| == 0 {
      assert xs + us == xs && ys + vs == ys;
    } else {
      PushAllTracks(r, xs, ys, Init(us), Init(vs));
      InitOfConcat(xs, us);
      InitOfConcat(ys, vs);
      Split(xs + us);
      Split(ys + vs);
      PushTracks(PushAll(r, Init(us), Init(vs)), xs + Init(us), ys + Init(vs), Last(us), Last(vs));
    }
  }

  /** Pushing the pairs of xs and ys into a cleared state leaves their moments and co-moment. */
  lemma {:induction false} AccumulateTracks(xs: seq<real>, ys: seq<real>)
    requires |xs| == |ys|
    ensures Tracks(PushAll(Clear(), xs, ys), xs, ys)
  {
    ClearTracks();
    PushAllTracks(Clear(), [], [], xs, ys);
    assert [] + xs == xs && [] + ys == ys;
  }

  /** Merging states that have seen two runs of pairs gives the state that has seen both runs. */
  lemma {:induction false} MergeTracks(a: Regression, b: Regression, xs: seq<real>, ys: seq<real>, us: seq<real>, vs: seq<real>)
    requires Tracks(a, xs, ys) && Tracks(b, us, vs) && a.n + b.n > 0
    ensures Tracks(Merge(a, b), xs + us, ys + vs)
  {
    RunningStats.MergeMoments(a.xStats, b.xStats, xs, us);
    RunningStats.MergeMoments(a.yStats, b.yStats, ys, vs);
    var sxy := a.sxy + b.sxy + Pooling(|xs|, |us|, Mean(us) - Mean(xs), Mean(vs) - Mean(ys));
    assert Merge(a, b) == Regression(RunningStats.Merge(a.xStats, b.xStats), RunningStats.Merge(a.yStats, b.yStats), sxy, |xs| + |us|);
    TracksConcat(RunningStats.Merge(a.xStats, b.xStats), RunningStats.Merge(a.yStats, b.yStats), sxy, xs, ys, us, vs);
  }

  lemma {:induction false} TracksConcat(sx: Stats, sy: Stats, sxy: real, xs: seq<real>, ys: seq<real>, us: seq<real>, vs: seq<real>)
    requires |xs| == |ys| && |us| == |vs| && |xs| + |us| > 0
    requires RunningStats.Moments(sx, xs + us) && RunningStats.Moments(sy, ys + vs)
    requires sxy == CoMoment(xs, ys) + CoMoment(us, vs) + Pooling(|xs|, |us|, Mean(us) - Mean(xs), Mean(vs) - Mean(ys))
    ensures Tracks(Regression(sx, sy, sxy, |xs| + |us|), xs + us, ys + vs)
  {
    CoMomentConcat(xs, ys, us, vs);
  }

  /** Merging keeps the three counts equal. */
  lemma {:induction false} MergeValid(a: Regression, b: Regression)
    requires Valid(a) && Valid(b) && a.n + b.n > 0
    ensures Valid(Merge(a, b))
  {
  }

  /** S_xx = variance_x (n - 1) is the variation of the xs seen, once two have been. */
  lemma {:induction false} SxxOfHistory(r: Regression, xs: seq<real>)
    requires RunningStats.Moments(r.xStats, xs) && r.n == |xs| >= 2
    ensures r.xStats.n != 1 && Sxx(r) == Variation(xs)
  {
    DivTimes(Variation(xs), (r.n as real) - 1.0);
  }

  /**
   With the pair history known, slope and intercept are the least-squares
   fit: S_xy over the sum of squared deviations of x, and
   mean_y - slope * mean_x.  They are defined whenever x takes two different
   values.
   */
  lemma {:induction false} FitOfHistory(r: Regression, xs: seq<real>, ys: seq<real>)
    requires Tracks(r, xs, ys) && Spread(xs)
    ensures |xs| >= 2 && Variation(xs) > 0.0
    ensures r.xStats.n != 1 && Sxx(r) != 0.0
    ensures Slope(r) == CoMoment(xs, ys) / Variation(xs)
    ensures Intercept(r) == Mean(ys) - Slope(r) * Mean(xs)
  {
    SpreadIffVaries(xs);
    SpreadHasTwo(xs);
    SxxOfHistory(r, xs);
  }

  /**
   If every pair lies on the line y = a x + b and x takes two different
   values, slope and intercept recover a and b exactly.
   */
  lemma {:induction false} LinearRecovery(r: Regression, xs: seq<real>, ys: seq<real>, a: real, b: real)
    requires Tracks(r, xs, ys) && OnLine(xs, ys, a, b) && Spread(xs)
    ensures r.xStats.n != 1 && Sxx(r) != 0.0
    ensures Slope(r) == a && Intercept(r) == b
  {
    FitOfHistory(r, xs, ys);
    LineRecovered(xs, ys, a, b);
  }

  /** rho^2 = c^2 / (sx sy), stated without the division. */
  predicate SquaredRatio(rho: real, c: real, sx: real, sy: real)
  {
    rho * rho * (sx * sy) == c * c
  }

  /**
   With the pair history known, both variables taking two different values
   and a true square root, the correlation is defined and its square is
   S_xy^2 / (S_xx S_yy): r^2 S_xx S_yy = S_xy^2.
   */
  lemma {:induction false} CorrelationOfHistory(r: Regression, xs: seq<real>, ys: seq<real>, sqrt: real -> real)
    requires Tracks(r, xs, ys) && Spread(xs) && Spread(ys) && SquareRoot(sqrt)
    ensures r.xStats.n != 1 && r.yStats.n != 1 && CorrelationScale(r, sqrt) > 0.0
    ensures SquaredRatio(Correlation(r, sqrt), CoMoment(xs, ys), Variation(xs), Variation(ys))
  {
    StdDevsOfHistory(r, xs, ys, sqrt);
    CorrelationOfMoments(r, sqrt, CoMoment(xs, ys), Variation(xs), Variation(ys), (r.n as real) - 1.0);
  }

  /** With the pair history known, the correlation has the sign of S_xy: positive, negative or zero with it. */
  lemma {:induction false} CorrelationSign(r: Regression, xs: seq<real>, ys: seq<real>, sqrt: real -> real)
    requires Tracks(r, xs, ys) && Spread(xs) && Spread(ys) && SquareRoot(sqrt)
    ensures r.xStats.n != 1 && r.yStats.n != 1 && CorrelationScale(r, sqrt) > 0.0
    ensures Correlation(r, sqrt) > 0.0 <==> CoMoment(xs, ys) > 0.0
    ensures Correlation(r, sqrt) < 0.0 <==> CoMoment(xs, ys) < 0.0
  {
    StdDevsOfHistory(r, xs, ys, sqrt);
    CorrelationOfMoments(r, sqrt, CoMoment(xs, ys), Variation(xs), Variation(ys), (r.n as real) - 1.0);
  }

  /** The standard deviations of a pair history are the roots of S_xx / (n - 1) and S_yy / (n - 1), both variations positive. */
  lemma {:induction false} StdDevsOfHistory(r: Regression, xs: seq<real>, ys: seq<real>, sqrt: real -> real)
    requires Tracks(r, xs, ys) && Spread(xs) && Spread(ys) && SquareRoot(sqrt)
    ensures r.n >= 2 && r.xStats.n != 1 && r.yStats.n != 1 && r.sxy == CoMoment(xs, ys)
    ensures Variation(xs) > 0.0 && Variation(ys) > 0.0
    ensures RunningStats.StdDev(r.xStats, sqrt) >= 0.0 && RunningStats.StdDev(r.yStats, sqrt) >= 0.0
    ensures RunningStats.StdDev(r.xStats, sqrt) * RunningStats.StdDev(r.xStats, sqrt) == Variation(xs) / ((r.n as real) - 1.0)
    ensures RunningStats.StdDev(r.yStats, sqrt) * RunningStats.StdDev(r.yStats, sqrt) == Variation(ys) / ((r.n as real) - 1.0)
  {
    SpreadIffVaries(xs);
    SpreadIffVaries(ys);
    SpreadHasTwo(xs);
    RunningStats.StdDevOfHistory(r.xStats, xs, sqrt);
    RunningStats.StdDevOfHistory(r.yStats, ys, sqrt);
    assert (|xs| as real) - 1.0 == (r.n as real) - 1.0;
  }

  /** The correlation in terms of S_xy = c, S_xx = sx > 0 and S_yy = sy > 0, given the standard deviations they imply. */
  lemma CorrelationOfMoments(r: Regression, sqrt: real -> real, c: real, sx: real, sy: real, k: real)
    requires r.n >= 2 && r.xStats.n != 1 && r.yStats.n != 1 && sx > 0.0 && sy > 0.0 && r.sxy == c
    requires k == (r.n as real) - 1.0
    requires RunningStats.StdDev(r.xStats, sqrt) >= 0.0 && RunningStats.StdDev(r.yStats, sqrt) >= 0.0
    requires RunningStats.StdDev(r.xStats, sqrt) * RunningStats.StdDev(r.xStats, sqrt) == sx / k
    requires RunningStats.StdDev(r.yStats, sqrt) * RunningStats.StdDev(r.yStats, sqrt) == sy / k
    ensures CorrelationScale(r, sqrt) > 0.0
    ensures SquaredRatio(Correlation(r, sqrt), c, sx, sy)
    ensures Correlation(r, sqrt) > 0.0 <==> c > 0.0
    ensures Correlation(r, sqrt) < 0.0 <==> c < 0.0
  {
    ScaleUnfolds(r, sqrt);
    ScalePositive(sx, sy, k, RunningStats.StdDev(r.xStats, sqrt),
                  RunningStats.StdDev(r.yStats, sqrt), CorrelationScale(r, sqrt));
    RatioSquare(c, sx * sy, CorrelationScale(r, sqrt), Correlation(r, sqrt));
  }

  lemma ScaleUnfolds(r: Regression, sqrt: real -> real)
    requires r.xStats.n != 1 && r.yStats.n != 1
    ensures CorrelationScale(r, sqrt) == ((r.n as real) - 1.0) * (RunningStats.StdDev(r.xStats, sqrt) * RunningStats.StdDev(r.yStats, sqrt))
  {
  }

  /** t = k u w with u and w the roots of sx / k and sy / k is positive, and t^2 = sx sy. */
  lemma ScalePositive(sx: real, sy: real, k: real, u: real, w: real, t: real)
    requires k > 0.0 && sx > 0.0 && sy > 0.0
    requires u >= 0.0 && u * u == sx / k && w >= 0.0 && w * w == sy / k && t == k * (u * w)
    ensures t > 0.0 && t * t == sx * sy
  {
    assert u != 0.0 && w != 0.0;
    PositiveProduct(u, w, u * w);
    PositiveProduct(k, u * w, t);
    assert t * t == (k * k) * ((u * u) * (w * w));
    assert (k * k) * ((sx / k) * (sy / k)) == sx * sy;
  }

  /** rho = c / t with t^2 = v > 0: rho^2 v = c^2, and rho has the sign of c. */
  lemma RatioSquare(c: real, v: real, t: real, rho: real)
    requires t > 0.0 && v > 0.0 && t * t == v && rho == c / t
    ensures rho * rho * v == c * c
    ensures rho > 0.0 <==> c > 0.0
    ensures rho < 0.0 <==> c < 0.0
  {
    assert rho * t == c;
    assert (rho * rho) * v == (rho * t) * (rho * t);
    assert (rho * rho) * v == c * c;
  }

  lemma DivTimes(v: real, k: real)
    requires k != 0.0
    ensures v / k * k == v
  {
  }
}
