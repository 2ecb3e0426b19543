/**
 The d-dimensional accumulator: one moment accumulator per variable and a
 d x d co-moment matrix S.  `push` moves every S[x][y] exactly as a pair
 regression of variable y on variable x moves its S_xy, using the means
 from before the point arrives; `operator+` pools S with the differences
 of the means.

 `Pair(ds, x, y)` reads that pair regression off the state.  Push and merge
 commute with it, so the facts proved about the pair regression carry
 over entry by entry: S[x][y] is the co-moment of columns x and y of the
 rows pushed, S is symmetric with each dimension's M2 on its diagonal, and
 slopes and intercepts are the least-squares fits.
 */
module RunningStatsDS {
  import opened Deviations
  import opened Outcomes
  import RunningStats
  import RunningRegression

  type Stats = RunningStats.Stats
  type Regression = RunningRegression.Regression

  /** `n` points of `dims` values each; `varStats[i]` sees the values of dimension i, `s` is the co-moment matrix. */
  datatype StatsDS = StatsDS(n: nat, dims: nat, varStats: seq<Stats>, s: seq<seq<real>>)

  /** One accumulator per dimension and a dims x dims matrix. */
  predicate Shaped(ds: StatsDS)
  {
    |ds.varStats| == ds.dims && |ds.s| == ds.dims &&
    forall i :: 0 <= i < ds.dims ==> |ds.s[i]| == ds.dims
  }

  /** Every dimension has seen every point. */
  predicate Counted(ds: StatsDS)
  {
    Shaped(ds) && forall i :: 0 <= i < ds.dims ==> ds.varStats[i].n == ds.n
  }

  /** The invariant every reachable state keeps: counts agree, S is symmetric, and its diagonal holds each dimension's M2. */
  predicate Valid(ds: StatsDS)
  {
    Counted(ds) &&
    (forall x, y :: 0 <= x < ds.dims && 0 <= y < ds.dims ==> ds.s[x][y] == ds.s[y][x]) &&
    (forall i :: 0 <= i < ds.dims ==> ds.s[i][i] == ds.varStats[i].m2)
  }

  function Zeros(d: nat): (m: seq<seq<real>>)
    ensures |m| == d && forall i :: 0 <= i < d ==> |m[i]| == d
  {
    seq(d, _ => seq(d, _ => 0.0))
  }

  /** Cleared accumulators for d dimensions, a zero matrix, no points. */
  function Fresh(d: nat): (ds: StatsDS)
    ensures Shaped(ds) && ds.dims == d && ds.n == 0
  {
    StatsDS(0, d, seq(d, _ => RunningStats.Clear()), Zeros(d))
  }

  /**
   The constructor.  A negative number of variables fails when the list of
   accumulators is allocated; zero variables are accepted.
   */
  function New(numVars: int): (r: Result<StatsDS>)
    ensures numVars < 0 <==> r.Failure?
    ensures r.Success? ==> r.value.dims == numVars && r.value.n == 0 && Valid(r.value) && Tracks(r.value, [])
  {
    if numVars < 0 then Failure("Non-negative number required.")
    else
      FreshTracks(numVars);
      Success(Fresh(numVars))
  }

  /** `clear()`: the same number of dimensions, all accumulators and co-moments back to zero. */
  function Clear(ds: StatsDS): (r: StatsDS)
    ensures r.dims == ds.dims && r.n == 0 && Valid(r) && Tracks(r, [])
    ensures forall i :: 0 <= i < r.dims ==> r.varStats[i] == RunningStats.Clear()
  {
    FreshTracks(ds.dims);
    Fresh(ds.dims)
  }

  /** `clear(newDim)`: a fresh state with newDim dimensions; a negative count fails as in the constructor. */
  function Resize(ds: StatsDS, newDim: int): (r: Result<StatsDS>)
    ensures newDim < 0 <==> r.Failure?
    ensures r.Success? ==> r.value.dims == newDim && r.value.n == 0 && Valid(r.value) && Tracks(r.value, [])
  {
    New(newDim)
  }

  /** Every row has at least d values. */
  predicate Wide(rows: seq<seq<real>>, d: nat)
  {
    forall r :: 0 <= r < |rows| ==> |rows[r]| >= d
  }

  /**
   `push(pt)`: S[x][y] gains (mean_x - pt[x])(mean_y - pt[y]) n / (n + 1)
   with the means from before the point, then dimension i takes pt[i].
   The point must hold at least dims values.
   */
  function Push(ds: StatsDS, pt: seq<real>): (r: StatsDS)
    requires Shaped(ds) && |pt| >= ds.dims
    ensures Shaped(r) && r.dims == ds.dims && r.n == ds.n + 1
  {
    var d := ds.dims;
    var s := seq(d, x requires 0 <= x < d => seq(d, y requires 0 <= y < d =>
               ds.s[x][y] + CoStep(RunningStats.Mean(ds.varStats[x]), RunningStats.Mean(ds.varStats[y]), ds.n, pt[x], pt[y])));
    var stats := seq(d, i requires 0 <= i < d => RunningStats.Push(ds.varStats[i], pt[i]));
    StatsDS(ds.n + 1, d, stats, s)
  }

  /** The rows pushed one after another, first to last. */
  function PushAll(ds: StatsDS, rows: seq<seq<real>>): (r: StatsDS)
    requires Shaped(ds) && Wide(rows, ds.dims)
    ensures Shaped(r) && r.dims == ds.dims && r.n == ds.n + |rows|
    decreases |rows|
  {
    if |rows| == 0 then ds
    else
      assert Wide(rows[..|rows| - 1], ds.dims);
      Push(PushAll(ds, rows[..|rows| - 1]), rows[|rows| - 1])
  }

  /** `push(double[][])`: each row in turn. */
  method PushRows(ds: StatsDS, rows: seq<seq<real>>) returns (r: StatsDS)
    requires Shaped(ds) && Wide(rows, ds.dims)
    ensures r == PushAll(ds, rows)
  {
    r := ds;
    var i := 0;
    while i < |rows|
      invariant 0 <= i <= |rows|
      invariant Wide(rows[..i], ds.dims)
      invariant r == PushAll(ds, rows[..i])
    {
      assert rows[..i + 1][..i] == rows[..i];
      r := Push(r, rows[i]);
      i := i + 1;
    }
    assert rows[..i] == rows;
  }

  /**
   `a + b`: refused when the dimension counts differ.  Otherwise counts
   add, each dimension's accumulators merge, and S[x][y] gains
   a.n b.n delta_x delta_y / n with delta = mean in a - mean in b.  The
   divisions need a non-empty union once there is a dimension.
   */
  function Merge(a: StatsDS, b: StatsDS): (r: Result<StatsDS>)
    requires Counted(a) && Counted(b)
    requires a.dims == b.dims && a.dims > 0 ==> a.n + b.n > 0
    ensures a.dims != b.dims <==> r.Failure?
    ensures r.Success? ==> Shaped(r.value) && r.value.dims == a.dims && r.value.n == a.n + b.n
  {
    if a.dims != b.dims then Failure("Number of dimensions must agree.")
    else
      var d := a.dims;
      var stats := seq(d, i requires 0 <= i < d => RunningStats.Merge(a.varStats[i], b.varStats[i]));
      var delta := seq(d, i requires 0 <= i < d => RunningStats.Mean(a.varStats[i]) - RunningStats.Mean(b.varStats[i]));
      var s := seq(d, x requires 0 <= x < d => seq(d, y requires 0 <= y < d =>
                 a.s[x][y] + b.s[x][y] + Pooling(a.n, b.n, delta[x], delta[y])));
      Success(StatsDS(a.n + b.n, d, stats, s))
  }

  // ---------------------------------------------------------------------
  // The pair regressions inside the state

  /** The regression of variable y on variable x that the state holds. */
  function Pair(ds: StatsDS, x: int, y: int): (r: Regression)
    requires Shaped(ds) && 0 <= x < ds.dims && 0 <= y < ds.dims
  {
    RunningRegression.Regression(ds.varStats[x], ds.varStats[y], ds.s[x][y], ds.n)
  }

  /** Value i of every row. */
  function Column(rows: seq<seq<real>>, i: nat): (c: seq<real>)
    requires forall r :: 0 <= r < |rows| ==> i < |rows[r]|
    ensures |c| == |rows|
  {
    seq(|rows|, r requires 0 <= r < |rows| => rows[r][i])
  }

  /** ds has seen exactly the rows: every dimension has counted them all, and every pair regression inside it tracks the corresponding two columns. */
  predicate Tracks(ds: StatsDS, rows: seq<seq<real>>)
  {
    Counted(ds) && Wide(rows, ds.dims) && ds.n == |rows| &&
    forall x, y :: 0 <= x < ds.dims && 0 <= y < ds.dims ==>
      RunningRegression.Tracks(Pair(ds, x, y), Column(rows, x), Column(rows, y))
  }

  /** Pushing a point pushes (pt[x], pt[y]) into every pair regression. */
  lemma {:induction false} PushPair(ds: StatsDS, pt: seq<real>, x: int, y: int)
    requires Shaped(ds) && |pt| >= ds.dims && 0 <= x < ds.dims && 0 <= y < ds.dims
    ensures Pair(Push(ds, pt), x, y) == RunningRegression.Push(Pair(ds, x, y), pt[x], pt[y])
  {
  }

  /** Merging two states merges every pair regression; the flipped difference of means leaves the pooling term unchanged. */
  lemma {:induction false} MergePair(a: StatsDS, b: StatsDS, x: int, y: int)
    requires Counted(a) && Counted(b) && a.dims == b.dims && a.n + b.n > 0
    requires 0 <= x < a.dims && 0 <= y < a.dims
    ensures Merge(a, b).Success?
    ensures Pair(Merge(a, b).value, x, y) == RunningRegression.Merge(Pair(a, x, y), Pair(b, x, y))
  {
    var ax, ay, bx, bY := a.varStats[x].m1, a.varStats[y].m1, b.varStats[x].m1, b.varStats[y].m1;
    PoolingFlip(a.n, b.n, ax - bx, ay - bY, bx - ax, bY - ay);
  }

  // ---------------------------------------------------------------------
  // The invariant

  lemma {:induction false} FreshTracks(d: nat)
    ensures Valid(Fresh(d)) && Tracks(Fresh(d), [])
  {
    var ds := Fresh(d);
    RunningRegression.ClearTracks();
    forall x, y | 0 <= x < d && 0 <= y < d
      ensures RunningRegression.Tracks(Pair(ds, x, y), Column([], x), Column([], y))
    {
      assert Pair(ds, x, y) == RunningRegression.Clear();
    }
  }

  /** Push keeps the counts equal, S symmetric and each dimension's M2 on the diagonal. */
  lemma {:induction false} PushValid(ds: StatsDS, pt: seq<real>)
    requires Valid(ds) && |pt| >= ds.dims
    ensures Valid(Push(ds, pt))
  {
    var r := Push(ds, pt);
    forall x, y | 0 <= x < ds.dims && 0 <= y < ds.dims
      ensures r.s[x][y] == r.s[y][x]
    {
      CoStepSymmetric(RunningStats.Mean(ds.varStats[x]), RunningStats.Mean(ds.varStats[y]), ds.n, pt[x], pt[y]);
    }
    forall i | 0 <= i < ds.dims
      ensures r.s[i][i] == r.varStats[i].m2
    {
      var si := ds.varStats[i];
      RunningStats.PushLowMoments(si.n, si.m1, si.m2, pt[i]);
    }
  }

  /** Merge keeps the counts equal, S symmetric and each dimension's M2 on the diagonal. */
  lemma {:induction false} MergeValid(a: StatsDS, b: StatsDS)
    requires Valid(a) && Valid(b) && a.dims == b.dims && a.n + b.n > 0
    ensures Merge(a, b).Success? && Valid(Merge(a, b).value)
  {
    var r := Merge(a, b).value;
    forall x, y | 0 <= x < a.dims && 0 <= y < a.dims
      ensures r.s[x][y] == r.s[y][x]
    {
      PoolingSymmetric(a.n, b.n, RunningStats.Mean(a.varStats[x]) - RunningStats.Mean(b.varStats[x]),
                       RunningStats.Mean(a.varStats[y]) - RunningStats.Mean(b.varStats[y]));
    }
    forall i | 0 <= i < a.dims
      ensures r.s[i][i] == r.varStats[i].m2
    {
      var ai, bi := a.varStats[i], b.varStats[i];
      RunningStats.MergeLowMoments(ai.n, bi.n, ai.m1, ai.m2, bi.m1, bi.m2);
      PoolingFlip(a.n, b.n, bi.m1 - ai.m1, bi.m1 - ai.m1, ai.m1 - bi.m1, ai.m1 - bi.m1);
    }
  }

  /** A state tracking its rows satisfies the invariant. */
  lemma {:induction false} TracksValid(ds: StatsDS, rows: seq<seq<real>>)
    requires Tracks(ds, rows)
    ensures Valid(ds)
  {
    forall i | 0 <= i < ds.dims
      ensures ds.varStats[i].n == ds.n && ds.s[i][i] == ds.varStats[i].m2
    {
      assert RunningRegression.Tracks(Pair(ds, i, i), Column(rows, i), Column(rows, i));
    }
    forall x, y | 0 <= x < ds.dims && 0 <= y < ds.dims
      ensures ds.s[x][y] == ds.s[y][x]
    {
      assert RunningRegression.Tracks(Pair(ds, x, y), Column(rows, x), Column(rows, y));
      assert RunningRegression.Tracks(Pair(ds, y, x), Column(rows, y), Column(rows, x));
      CoMomentSymmetric(Column(rows, x), Column(rows, y));
    }
  }

  // ---------------------------------------------------------------------
  // Relations to the rows pushed

  lemma {:induction false} ColumnAppend(rows: seq<seq<real>>, pt: seq<real>, i: nat)
    requires forall r :: 0 <= r < |rows| ==> i < |rows[r]|
    requires i < |pt|
    ensures Column(rows + [pt], i) == Column(rows, i) + [pt[i]]
  {
    assert forall r :: 0 <= r < |rows| ==> (rows + [pt])[r] == rows[r];
  }

  lemma {:induction false} ColumnConcat(rows: seq<seq<real>>, more: seq<seq<real>>, i: nat)
    requires forall r :: 0 <= r < |rows| ==> i < |rows[r]|
    requires forall r :: 0 <= r < |more| ==> i < |more[r]|
    ensures Column(rows + more, i) == Column(rows, i) + Column(more, i)
  {
    assert forall r :: 0 <= r < |rows| ==> (rows + more)[r] == rows[r];
    assert forall r :: 0 <= r < |more| ==> (rows + more)[|rows| + r] == more[r];
  }

  /** After a push the state has seen the rows so far and the new point. */
  lemma {:induction false} PushTracks(ds: StatsDS, rows: seq<seq<real>>, pt: seq<real>)
    requires Tracks(ds, rows) && |pt| >= ds.dims
    ensures Tracks(Push(ds, pt), rows + [pt])
  {
    var r := Push(ds, pt);
    var rows' := rows + [pt];
    assert Wide(rows', ds.dims);
    forall x, y | 0 <= x < ds.dims && 0 <= y < ds.dims
      ensures RunningRegression.Tracks(Pair(r, x, y), Column(rows', x), Column(rows', y))
    {
      PushPair(ds, pt, x, y);
      ColumnAppend(rows, pt, x);
      ColumnAppend(rows, pt, y);
      RunningRegression.PushTracks(Pair(ds, x, y), Column(rows, x), Column(rows, y), pt[x], pt[y]);
    }
  }

  lemma {:induction false} PushAllTracks(ds: StatsDS, rows: seq<seq<real>>, more: seq<seq<real>>)
    requires Tracks(ds, rows) && Wide(more, ds.dims)
    ensures Tracks(PushAll(ds, more), rows + more)
    decreases |more|
  {
    if |more| == 0 {
      assert rows + more == rows;
    } else {
      var init := more[..|more| - 1];
      assert Wide(init, ds.dims);
      PushAllTracks(ds, rows, init);
      PushTracks(PushAll(ds, init), rows + init, more[|more| - 1]);
      assert rows + init + [more[|more| - 1]] == rows + more;
    }
  }

  /** Pushing rows into a fresh state leaves a state tracking exactly those rows. */
  lemma {:induction false} AccumulateTracks(d: nat, rows: seq<seq<real>>)
    requires Wide(rows, d)
    ensures Tracks(PushAll(Fresh(d), rows), rows)
  {
    FreshTracks(d);
    PushAllTracks(Fresh(d), [], rows);
    assert [] + rows == rows;
  }

  /** Merging states that have seen two runs of rows succeeds and gives the state that has seen both runs. */
  lemma {:induction false} MergeTracks(a: StatsDS, b: StatsDS, ra: seq<seq<real>>, rb: seq<seq<real>>)
    requires Tracks(a, ra) && Tracks(b, rb) && a.dims == b.dims && a.n + b.n > 0
    ensures Merge(a, b).Success? && Tracks(Merge(a, b).value, ra + rb)
  {
    TracksValid(a, ra);
    TracksValid(b, rb);
    var r := Merge(a, b).value;
    assert Wide(ra + rb, a.dims);
    forall x, y | 0 <= x < a.dims && 0 <= y < a.dims
      ensures RunningRegression.Tracks(Pair(r, x, y), Column(ra + rb, x), Column(ra + rb, y))
    {
      MergePair(a, b, x, y);
      ColumnConcat(ra, rb, x);
      ColumnConcat(ra, rb, y);
      RunningRegression.MergeTracks(Pair(a, x, y), Pair(b, x, y), Column(ra, x), Column(ra, y), Column(rb, x), Column(rb, y));
    }
  }

  // ---------------------------------------------------------------------
  // The derived matrices.  Row index: independent variable; column index:
  // dependent variable.

  /** S_xx of dimension x, variance_x (n - 1), as the slopes compute it. */
  function DimSxx(ds: StatsDS, x: int): (sxx: real)
    requires Shaped(ds) && 0 <= x < ds.dims && ds.varStats[x].n != 1
  {
    RunningStats.Variance(ds.varStats[x]) * ((ds.n as real) - 1.0)
  }

  /** Every slope divides by a defined, non-zero S_xx. */
  predicate SlopesDefined(ds: StatsDS)
  {
    Shaped(ds) && forall x :: 0 <= x < ds.dims ==> ds.varStats[x].n != 1 && DimSxx(ds, x) != 0.0
  }

  /** `slopes`: entry [x][y] is the slope of the pair regression of y on x. */
  function Slopes(ds: StatsDS): (m: seq<seq<real>>)
    requires SlopesDefined(ds)
    ensures |m| == ds.dims && forall x :: 0 <= x < ds.dims ==> |m[x]| == ds.dims
    ensures forall x, y :: 0 <= x < ds.dims && 0 <= y < ds.dims ==> m[x][y] == RunningRegression.Slope(Pair(ds, x, y))
  {
    var d := ds.dims;
    seq(d, x requires 0 <= x < d => seq(d, y requires 0 <= y < d => ds.s[x][y] / DimSxx(ds, x)))
  }

  /** `intercepts`: entry [x][y] is mean_y - slopes[x][y] mean_x, the intercept of the pair regression of y on x. */
  function Intercepts(ds: StatsDS): (m: seq<seq<real>>)
    requires SlopesDefined(ds)
    ensures |m| == ds.dims && forall x :: 0 <= x < ds.dims ==> |m[x]| == ds.dims
    ensures forall x, y :: 0 <= x < ds.dims && 0 <= y < ds.dims ==> m[x][y] == RunningRegression.Intercept(Pair(ds, x, y))
  {
    var d := ds.dims;
    var slopes := Slopes(ds);
    seq(d, x requires 0 <= x < d => seq(d, y requires 0 <= y < d =>
      RunningStats.Mean(ds.varStats[y]) - slopes[x][y] * RunningStats.Mean(ds.varStats[x])))
  }

  /** `covariances`: S / (n - 1), defined except for a single point; scaled back by n - 1 each entry is the co-moment sum S[x][y]. */
  function Covariances(ds: StatsDS): (m: seq<seq<real>>)
    requires Shaped(ds) && ds.n != 1
    ensures |m| == ds.dims && forall x :: 0 <= x < ds.dims ==> |m[x]| == ds.dims
    ensures forall x, y :: 0 <= x < ds.dims && 0 <= y < ds.dims ==> m[x][y] * ((ds.n as real) - 1.0) == ds.s[x][y]
  {
    var d := ds.dims;
    seq(d, x requires 0 <= x < d => seq(d, y requires 0 <= y < d => ds.s[x][y] / ((ds.n as real) - 1.0)))
  }

  /** Every correlation divides by a defined, non-zero (n - 1) stdDev_x stdDev_y. */
  predicate CorrelationsDefined(ds: StatsDS, sqrt: real -> real)
  {
    Shaped(ds) && (forall x :: 0 <= x < ds.dims ==> ds.varStats[x].n != 1) &&
    forall x, y :: 0 <= x < ds.dims && 0 <= y < ds.dims ==> RunningRegression.CorrelationScale(Pair(ds, x, y), sqrt) != 0.0
  }

  /**
   `correlations`: S[x][y] / ((n - 1) stdDev_x stdDev_y), with the square
   root supplied by the caller; entry [x][y] is the correlation of the
   pair regression of y on x.
   */
  function Correlations(ds: StatsDS, sqrt: real -> real): (m: seq<seq<real>>)
    requires CorrelationsDefined(ds, sqrt)
    ensures |m| == ds.dims && forall x :: 0 <= x < ds.dims ==> |m[x]| == ds.dims
    ensures forall x, y :: 0 <= x < ds.dims && 0 <= y < ds.dims ==> m[x][y] == RunningRegression.Correlation(Pair(ds, x, y), sqrt)
  {
    var d := ds.dims;
    seq(d, x requires 0 <= x < d => seq(d, y requires 0 <= y < d => ds.s[x][y] / RunningRegression.CorrelationScale(Pair(ds, x, y), sqrt)))
  }

  /** The covariance matrix is symmetric, with each dimension's variance on its diagonal. */
  lemma {:induction false} CovariancesSymmetric(ds: StatsDS)
    requires Valid(ds) && ds.n != 1
    ensures forall x, y :: 0 <= x < ds.dims && 0 <= y < ds.dims ==> Covariances(ds)[x][y] == Covariances(ds)[y][x]
    ensures forall i :: 0 <= i < ds.dims ==> Covariances(ds)[i][i] == RunningStats.Variance(ds.varStats[i])
  {
  }

  /** The correlation matrix is symmetric, whatever square root is used. */
  lemma {:induction false} CorrelationsSymmetric(ds: StatsDS, sqrt: real -> real)
    requires Valid(ds) && CorrelationsDefined(ds, sqrt)
    ensures forall x, y :: 0 <= x < ds.dims && 0 <= y < ds.dims ==> Correlations(ds, sqrt)[x][y] == Correlations(ds, sqrt)[y][x]
  {
    var m := Correlations(ds, sqrt);
    forall x, y | 0 <= x < ds.dims && 0 <= y < ds.dims
      ensures m[x][y] == m[y][x]
    {
      assert RunningRegression.CorrelationScale(Pair(ds, x, y), sqrt) == RunningRegression.CorrelationScale(Pair(ds, y, x), sqrt);
    }
  }

  /** With the rows known, covariance [x][y] is the co-moment of columns x and y over n - 1. */
  lemma {:induction false} CovariancesOfHistory(ds: StatsDS, rows: seq<seq<real>>, x: int, y: int)
    requires Tracks(ds, rows) && ds.n != 1 && 0 <= x < ds.dims && 0 <= y < ds.dims
    ensures Covariances(ds)[x][y] == CoMoment(Column(rows, x), Column(rows, y)) / ((|rows| as real) - 1.0)
  {
    assert RunningRegression.Tracks(Pair(ds, x, y), Column(rows, x), Column(rows, y));
  }

  /**
   With the rows known and column x taking two different values, slope and
   intercept [x][y] are the least-squares fit of column y on column x.
   */
  lemma {:induction false} SlopesOfHistory(ds: StatsDS, rows: seq<seq<real>>, x: int, y: int)
    requires Tracks(ds, rows) && SlopesDefined(ds) && 0 <= x < ds.dims && 0 <= y < ds.dims
    requires Spread(Column(rows, x))
    ensures Variation(Column(rows, x)) > 0.0
    ensures Slopes(ds)[x][y] == CoMoment(Column(rows, x), Column(rows, y)) / Variation(Column(rows, x))
    ensures Intercepts(ds)[x][y] == Mean(Column(rows, y)) - Slopes(ds)[x][y] * Mean(Column(rows, x))
  {
    assert RunningRegression.Tracks(Pair(ds, x, y), Column(rows, x), Column(rows, y));
    RunningRegression.FitOfHistory(Pair(ds, x, y), Column(rows, x), Column(rows, y));
  }

  /**
   With the rows known, columns x and y each taking two different values and
   a true square root, correlation [x][y] is defined, its square is
   S_xy^2 / (S_xx S_yy) over the two columns, and its sign is the sign of
   their co-moment.
   */
  lemma {:induction false} CorrelationsOfHistory(ds: StatsDS, rows: seq<seq<real>>, x: int, y: int, sqrt: real -> real)
    requires Tracks(ds, rows) && CorrelationsDefined(ds, sqrt) && 0 <= x < ds.dims && 0 <= y < ds.dims
    requires Spread(Column(rows, x)) && Spread(Column(rows, y)) && SquareRoot(sqrt)
    ensures RunningRegression.SquaredRatio(Correlations(ds, sqrt)[x][y], CoMoment(Column(rows, x), Column(rows, y)),
                                           Variation(Column(rows, x)), Variation(Column(rows, y)))
    ensures Correlations(ds, sqrt)[x][y] > 0.0 <==> CoMoment(Column(rows, x), Column(rows, y)) > 0.0
    ensures Correlations(ds, sqrt)[x][y] < 0.0 <==> CoMoment(Column(rows, x), Column(rows, y)) < 0.0
  {
    assert RunningRegression.Tracks(Pair(ds, x, y), Column(rows, x), Column(rows, y));
    RunningRegression.CorrelationOfHistory(Pair(ds, x, y), Column(rows, x), Column(rows, y), sqrt);
    RunningRegression.CorrelationSign(Pair(ds, x, y), Column(rows, x), Column(rows, y), sqrt);
  }

  /** If column y is exactly a column x + b and column x is not constant, slope [x][y] is a and intercept [x][y] is b. */
  lemma {:induction false} SlopesRecoverLine(ds: StatsDS, rows: seq<seq<real>>, x: int, y: int, a: real, b: real)
    requires Tracks(ds, rows) && SlopesDefined(ds) && 0 <= x < ds.dims && 0 <= y < ds.dims
    requires OnLine(Column(rows, x), Column(rows, y), a, b) && Spread(Column(rows, x))
    ensures Slopes(ds)[x][y] == a && Intercepts(ds)[x][y] == b
  {
    assert RunningRegression.Tracks(Pair(ds, x, y), Column(rows, x), Column(rows, y));
    RunningRegression.LinearRecovery(Pair(ds, x, y), Column(rows, x), Column(rows, y), a, b);
  }

  /** Once every column takes two different values, every slope and intercept is defined. */
  lemma {:induction false} SpreadDefinesSlopes(ds: StatsDS, rows: seq<seq<real>>)
    requires Tracks(ds, rows)
    requires forall x :: 0 <= x < ds.dims ==> Spread(Column(rows, x))
    ensures SlopesDefined(ds)
  {
    forall x | 0 <= x < ds.dims
      ensures ds.varStats[x].n != 1 && DimSxx(ds, x) != 0.0
    {
      assert RunningRegression.Tracks(Pair(ds, x, x), Column(rows, x), Column(rows, x));
      RunningRegression.FitOfHistory(Pair(ds, x, x), Column(rows, x), Column(rows, x));
    }
  }
}
