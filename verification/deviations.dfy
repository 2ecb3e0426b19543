/**
 Batch (reference) definitions of the statistics that the streaming
 accumulators keep, over a finite sequence of reals: the total, the
 arithmetic mean and the co-moment -- the sum of the products of paired
 deviations from the two means, not divided by the count.

 The co-moment is defined through raw sums, by the textbook identity
   sum of (x_i - mean_x)(y_i - mean_y)  ==  sum of x_i y_i - (sum x)(sum y) / n,
 so that nothing in its definition depends on the order in which values
 arrive; the streaming updates are then shown to agree with it.  Every
 recursive definition peels the LAST element off the sequence, so that
 appending one value -- which is what a push does -- is one unfolding.
 The nonlinear algebra is done in lemmas over plain reals.
 */
module Deviations {

  function Init(xs: seq<real>): (ys: seq<real>)
    requires |xs| > 0
  {
    xs[..|xs| - 1]
  }

  function Last(xs: seq<real>): (x: real)
    requires |xs| > 0
  {
    xs[|xs| - 1]
  }

  /** The total of the values. */
  function Sum(xs: seq<real>): (s: real)
    decreases |xs|
  {
    if |xs| == 0 then 0.0 else Sum(Init(xs)) + Last(xs)
  }

  /** The sum of the products of the values of xs and ys taken index by index. */
  function Dot(xs: seq<real>, ys: seq<real>): (s: real)
    requires |xs| == |ys|
    decreases |xs|
  {
    if |xs| == 0 then 0.0 else Dot(Init(xs), Init(ys)) + Last(xs) * Last(ys)
  }

  /** The mean of n values totalling s; no values have mean 0, as a cleared accumulator has. */
  function MeanOf(n: nat, s: real): (m: real)
  {
    if n == 0 then 0.0 else s / (n as real)
  }

  /** The co-moment of n pairs whose coordinates total sx and sy and whose products total sxy. */
  function CoDev(n: nat, sx: real, sy: real, sxy: real): (c: real)
  {
    if n == 0 then 0.0 else sxy - sx * sy / (n as real)
  }

  function Mean(xs: seq<real>): (m: real)
  {
    MeanOf(|xs|, Sum(xs))
  }

  /** The sum of (x_i - mean_x)(y_i - mean_y) over the pairs. */
  function CoMoment(xs: seq<real>, ys: seq<real>): (c: real)
    requires |xs| == |ys|
  {
    CoDev(|xs|, Sum(xs), Sum(ys), Dot(xs, ys))
  }

  /** The sum of squared deviations from the mean. */
  function Variation(xs: seq<real>): (v: real)
  {
    CoMoment(xs, xs)
  }

  /**
   What appending the pair (x, y) to n pairs whose means are mx and my adds
   to their co-moment: (mx - x)(my - y) n / (n + 1).
   */
  function CoStep(mx: real, my: real, n: nat, x: real, y: real): (c: real)
  {
    (mx - x) * (my - y) * ((n as real) / ((n + 1) as real))
  }

  /**
   The cross term that pooling two groups of na and nb pairs adds to the
   co-moment, when their means differ by dx and dy.
   */
  function Pooling(na: nat, nb: nat, dx: real, dy: real): (p: real)
    requires na + nb > 0
  {
    ((na * nb) as real) * dx * dy / ((na + nb) as real)
  }

  /** Every pair (xs[i], ys[i]) lies on the line y = a x + b. */
  predicate OnLine(xs: seq<real>, ys: seq<real>, a: real, b: real)
  {
    |xs| == |ys| && forall i :: 0 <= i < |xs| ==> ys[i] == a * xs[i] + b
  }

  // ---------------------------------------------------------------------
  // Sequence facts

  lemma {:induction false} AppendOne(xs: seq<real>, x: real)
    ensures Init(xs + [x]) == xs && Last(xs + [x]) == x
  {
    assert (xs + [x])[..|xs|] == xs;
  }

  lemma {:induction false} InitOfConcat(xs: seq<real>, ys: seq<real>)
    requires |ys| > 0
    ensures Init(xs + ys) == xs + Init(ys)
    ensures Last(xs + ys) == Last(ys)
  {
    assert (xs + ys)[..|xs + ys| - 1] == xs + ys[..|ys| - 1];
  }

  lemma {:induction false} Split(xs: seq<real>)
    requires |xs| > 0
    ensures xs == Init(xs) + [Last(xs)]
  {
  }

  // ---------------------------------------------------------------------
  // Raw sums

  lemma {:induction false} EmptySums(xs: seq<real>, ys: seq<real>)
    requires |xs| == |ys| == 0
    ensures Sum(xs) == 0.0 && Sum(ys) == 0.0 && Dot(xs, ys) == 0.0
  {
  }

  lemma SingletonSums(x: real, y: real)
    ensures Sum([x]) == x && Dot([x], [y]) == x * y
  {
    AppendOne([], x);
    AppendOne([], y);
  }

  lemma {:induction false} SumConcat(xs: seq<real>, ys: seq<real>)
    ensures Sum(xs + ys) == Sum(xs) + Sum(ys)
    decreases |ys|
  {
    if |ys| == 0 {
      assert xs + ys == xs;
    } else {
      InitOfConcat(xs, ys);
      SumConcat(xs, Init(ys));
    }
  }

  lemma {:induction false} DotConcat(xs: seq<real>, ys: seq<real>, us: seq<real>, vs: seq<real>)
    requires |xs| == |ys| && |us| == |vs|
    ensures Dot(xs + us, ys + vs) == Dot(xs, ys) + Dot(us, vs)
    decreases |us|
  {
    if |us| == 0 {
      assert xs + us == xs && ys + vs == ys;
    } else {
      InitOfConcat(xs, us);
      InitOfConcat(ys, vs);
      DotConcat(xs, ys, Init(us), Init(vs));
    }
  }

  lemma {:induction false} DotSymmetric(xs: seq<real>, ys: seq<real>)
    requires |xs| == |ys|
    ensures Dot(xs, ys) == Dot(ys, xs)
    decreases |xs|
  {
    if |xs| > 0 {
      DotSymmetric(Init(xs), Init(ys));
    }
  }

  // ---------------------------------------------------------------------
  // Means

  /** The total is the count times the mean, also for no values. */
  lemma {:induction false} CountTimesMean(n: nat, s: real)
    requires n == 0 ==> s == 0.0
    ensures s == (n as real) * MeanOf(n, s)
  {
  }

  /** The mean of a concatenation is the count-weighted mean of the means of its parts. */
  lemma {:induction false} MeanConcat(xs: seq<real>, us: seq<real>)
    requires |xs| + |us| > 0
    ensures Mean(xs + us) == ((|xs| as real) * Mean(xs) + (|us| as real) * Mean(us)) / ((|xs| + |us|) as real)
  {
    SumConcat(xs, us);
    if |xs| == 0 { EmptySums(xs, xs); }
    if |us| == 0 { EmptySums(us, us); }
    PooledMean(|xs|, |us|, Sum(xs), Sum(us));
    assert |xs + us| == |xs| + |us|;
    assert Mean(xs + us) == MeanOf(|xs| + |us|, Sum(xs) + Sum(us));
  }

  lemma {:induction false} PooledMean(na: nat, nb: nat, sa: real, sb: real)
    requires na + nb > 0
    requires na == 0 ==> sa == 0.0
    requires nb == 0 ==> sb == 0.0
    ensures MeanOf(na + nb, sa + sb) == ((na as real) * MeanOf(na, sa) + (nb as real) * MeanOf(nb, sb)) / ((na + nb) as real)
  {
    CountTimesMean(na, sa);
    CountTimesMean(nb, sb);
  }

  /** Appending x moves the mean by (x - mean) / (n + 1). */
  lemma {:induction false} MeanAppend(xs: seq<real>, x: real)
    ensures Mean(xs + [x]) == Mean(xs) + (x - Mean(xs)) / ((|xs| + 1) as real)
  {
    MeanConcat(xs, [x]);
    SingletonSums(x, x);
    MeanStep(|xs| as real, Mean(xs), x);
  }

  lemma MeanStep(n: real, m: real, x: real)
    requires n >= 0.0
    ensures (n * m + 1.0 * (x / 1.0)) / (n + 1.0) == m + (x - m) / (n + 1.0)
  {
    assert n * m + x == m * (n + 1.0) + (x - m);
  }

  // ---------------------------------------------------------------------
  // Co-moments

  lemma SingletonCoMoment(x: real, y: real)
    ensures Mean([x]) == x && CoMoment([x], [y]) == 0.0
  {
    SingletonSums(x, y);
  }

  lemma {:induction false} CoMomentSymmetric(xs: seq<real>, ys: seq<real>)
    requires |xs| == |ys|
    ensures CoMoment(xs, ys) == CoMoment(ys, xs)
  {
    DotSymmetric(xs, ys);
  }

  /**
   The co-moment of a concatenation: the co-moments of the parts plus the
   pooling term for the difference of their means.
   */
  lemma {:induction false} CoMomentConcat(xs: seq<real>, ys: seq<real>, us: seq<real>, vs: seq<real>)
    requires |xs| == |ys| && |us| == |vs| && |xs| + |us| > 0
    ensures CoMoment(xs + us, ys + vs)
            == CoMoment(xs, ys) + CoMoment(us, vs) + Pooling(|xs|, |us|, Mean(us) - Mean(xs), Mean(vs) - Mean(ys))
  {
    SumConcat(xs, us);
    SumConcat(ys, vs);
    DotConcat(xs, ys, us, vs);
    if |xs| == 0 { EmptySums(xs, ys); }
    if |us| == 0 { EmptySums(us, vs); }
    PoolAlgebra(|xs|, |us|, Sum(xs), Sum(ys), Sum(us), Sum(vs), Dot(xs, ys), Dot(us, vs));
  }

  /**
   Appending the pair (x, y) adds (mean_x - x)(mean_y - y) n / (n + 1) to
   the co-moment, n being the number of pairs before.
   */
  lemma {:induction false} CoMomentAppend(xs: seq<real>, ys: seq<real>, x: real, y: real)
    requires |xs| == |ys|
    ensures CoMoment(xs + [x], ys + [y])
            == CoMoment(xs, ys) + CoStep(Mean(xs), Mean(ys), |xs|, x, y)
  {
    CoMomentConcat(xs, ys, [x], [y]);
    SingletonCoMoment(x, y);
    SingletonCoMoment(y, x);
    PoolingOne(|xs|, Mean(xs), Mean(ys), x, y);
  }

  /** Appending x adds (mean - x)^2 n / (n + 1) to the variation. */
  lemma {:induction false} VariationAppend(xs: seq<real>, x: real)
    ensures Variation(xs + [x])
            == Variation(xs) + CoStep(Mean(xs), Mean(xs), |xs|, x, x)
  {
    CoMomentAppend(xs, xs, x, x);
  }

  lemma {:induction false} VariationNonNegative(xs: seq<real>)
    ensures Variation(xs) >= 0.0
    decreases |xs|
  {
    if |xs| == 0 {
      EmptySums(xs, xs);
    } else {
      var init, x := Init(xs), Last(xs);
      VariationNonNegative(init);
      Split(xs);
      VariationAppend(init, x);
      SquareStep(Mean(init), |init|, x);
    }
  }

  /** The sum of (xs[i] - mx)(ys[i] - my) over the pairs, about fixed centres mx and my. */
  function DevDot(xs: seq<real>, ys: seq<real>, mx: real, my: real): (s: real)
    requires |xs| == |ys|
    decreases |xs|
  {
    if |xs| == 0 then 0.0 else DevDot(Init(xs), Init(ys), mx, my) + (Last(xs) - mx) * (Last(ys) - my)
  }

  /** The multiplied-out deviation sum of n pairs with raw sums sx, sy and sxy, about centres mx and my. */
  function Expanded(n: real, sx: real, sy: real, sxy: real, mx: real, my: real): (s: real)
  {
    sxy - my * sx - mx * sy + n * (mx * my)
  }

  /** Multiplying out the deviations: the sum about any centres, in terms of the raw sums. */
  lemma {:induction false} DevDotExpands(xs: seq<real>, ys: seq<real>, mx: real, my: real)
    requires |xs| == |ys|
    ensures DevDot(xs, ys, mx, my) == Expanded(|xs| as real, Sum(xs), Sum(ys), Dot(xs, ys), mx, my)
    decreases |xs|
  {
    if |xs| == 0 {
      EmptySums(xs, ys);
    } else {
      var xs0, ys0 := Init(xs), Init(ys);
      DevDotExpands(xs0, ys0, mx, my);
      ExpandStep(|xs0| as real, Sum(xs0), Sum(ys0), Dot(xs0, ys0), DevDot(xs0, ys0, mx, my), Last(xs), Last(ys), mx, my,
                 |xs| as real, Sum(xs), Sum(ys), Dot(xs, ys), DevDot(xs, ys, mx, my));
    }
  }

  /** One more pair (x, y) adds (x - mx)(y - my) to the multiplied-out sum. */
  lemma ExpandStep(n: real, sx: real, sy: real, sxy: real, d: real, x: real, y: real, mx: real, my: real,
                   n': real, sx': real, sy': real, sxy': real, d': real)
    requires d == Expanded(n, sx, sy, sxy, mx, my)
    requires n' == n + 1.0 && sx' == sx + x && sy' == sy + y && sxy' == sxy + x * y && d' == d + (x - mx) * (y - my)
    ensures d' == Expanded(n', sx', sy', sxy', mx, my)
  {
  }

  /**
   The co-moment, defined from the raw sums, is the sum of the products of
   the paired deviations from the two means; with ys = xs it is the sum of
   squared deviations.
   */
  lemma {:induction false} DeviationForm(xs: seq<real>, ys: seq<real>)
    requires |xs| == |ys|
    ensures CoMoment(xs, ys) == DevDot(xs, ys, Mean(xs), Mean(ys))
  {
    var n, mx, my := |xs|, Mean(xs), Mean(ys);
    DevDotExpands(xs, ys, mx, my);
    if n == 0 {
      EmptySums(xs, ys);
    } else {
      CoDevByMeans(n, Sum(xs), Sum(ys), Dot(xs, ys));
      CountTimesMean(n, Sum(xs));
      CountTimesMean(n, Sum(ys));
      Centred(n as real, Sum(xs), Sum(ys), Dot(xs, ys), mx, my);
    }
  }

  /** About the means themselves the multiplied-out sum is sxy - n mx my. */
  lemma Centred(n: real, sx: real, sy: real, sxy: real, mx: real, my: real)
    requires sx == n * mx && sy == n * my
    ensures Expanded(n, sx, sy, sxy, mx, my) == sxy - n * mx * my
  {
  }

  /** sqrt is the non-negative square root on the non-negative reals. */
  ghost predicate SquareRoot(sqrt: real -> real)
  {
    forall v :: v >= 0.0 ==> sqrt(v) >= 0.0 && sqrt(v) * sqrt(v) == v
  }

  /** xs holds two different values. */
  predicate Spread(xs: seq<real>)
  {
    exists i, j :: 0 <= i < |xs| && 0 <= j < |xs| && xs[i] != xs[j]
  }

  /** The variation is positive exactly when xs holds two different values; otherwise it is zero. */
  lemma {:induction false} SpreadIffVaries(xs: seq<real>)
    ensures Spread(xs) <==> Variation(xs) > 0.0
    ensures !Spread(xs) ==> Variation(xs) == 0.0
  {
    if Spread(xs) {
      SpreadVaries(xs);
    } else if |xs| == 0 {
      EmptySums(xs, xs);
    } else {
      ConstantMoments(xs, xs[0]);
    }
  }

  /** A sequence of copies of c has mean c and variation 0. */
  lemma {:induction false} ConstantMoments(xs: seq<real>, c: real)
    requires |xs| > 0 && forall i :: 0 <= i < |xs| ==> xs[i] == c
    ensures Mean(xs) == c && Variation(xs) == 0.0
    decreases |xs|
  {
    var init, x := Init(xs), Last(xs);
    Split(xs);
    if |init| == 0 {
      assert xs == [c];
      SingletonCoMoment(c, c);
    } else {
      ConstantMoments(init, c);
      MeanAppend(init, c);
      VariationAppend(init, c);
    }
  }

  /** Two different values need two positions. */
  lemma {:induction false} SpreadHasTwo(xs: seq<real>)
    requires Spread(xs)
    ensures |xs| >= 2
  {
  }

  lemma {:induction false} SpreadVaries(xs: seq<real>)
    requires Spread(xs)
    ensures Variation(xs) > 0.0
    decreases |xs|
  {
    SpreadHasTwo(xs);
    var init, x := Init(xs), Last(xs);
    Split(xs);
    VariationAppend(init, x);
    SquareStep(Mean(init), |init|, x);
    if Spread(init) {
      SpreadVaries(init);
    } else {
      var c := OddOneOut(xs);
      ConstantMoments(init, c);
    }
  }

  /** When xs holds two different values but its initial part does not, the last value differs from all the others. */
  lemma {:induction false} OddOneOut(xs: seq<real>) returns (c: real)
    requires Spread(xs) && !Spread(Init(xs))
    ensures |Init(xs)| > 0 && Last(xs) != c
    ensures forall k :: 0 <= k < |Init(xs)| ==> Init(xs)[k] == c
  {
    SpreadHasTwo(xs);
    var init := Init(xs);
    c := init[0];
    var i, j :| 0 <= i < |xs| && 0 <= j < |xs| && xs[i] != xs[j];
    var k := if xs[i] != c then i else j;
    forall m | 0 <= m < |init|
      ensures xs[m] == c
    {
      assert xs[m] == init[m];
    }
    assert k == |xs| - 1;
  }

  /**
   The moments of pairs on the line y = a x + b: the mean of the ys is a
   times the mean of the xs plus b, and the co-moment of the pairs is a
   times the variation of the xs.
   */
  predicate LineFit(xs: seq<real>, ys: seq<real>, a: real, b: real)
    requires |xs| == |ys|
  {
    Mean(ys) == a * Mean(xs) + b && CoMoment(xs, ys) == a * Variation(xs)
  }

  /** On the line y = a x + b the ys total a times the total of the xs plus n b. */
  lemma {:induction false} LineSum(xs: seq<real>, ys: seq<real>, a: real, b: real) returns (sx: real, sy: real)
    requires OnLine(xs, ys, a, b)
    ensures sx == Sum(xs) && sy == Sum(ys) && sy == a * sx + b * (|xs| as real)
    decreases |xs|
  {
    if |xs| == 0 {
      sx, sy := 0.0, 0.0;
    } else {
      LineLast(xs, ys, a, b);
      var sx0, sy0 := LineSum(Init(xs), Init(ys), a, b);
      sx, sy := sx0 + Last(xs), sy0 + Last(ys);
      LineSumStep(sx0, sy0, Last(xs), Last(ys), a, b, |Init(xs)|, sx, sy, |xs|);
    }
  }

  /**
   On the line y = a x + b, weighting the ys by ws gives a times the
   weighted xs plus b times the total weight.
   */
  lemma {:induction false} LineDot(ws: seq<real>, xs: seq<real>, ys: seq<real>, a: real, b: real)
    returns (sw: real, dwx: real, dwy: real)
    requires OnLine(xs, ys, a, b) && |ws| == |xs|
    ensures sw == Sum(ws) && dwx == Dot(ws, xs) && dwy == Dot(ws, ys) && dwy == a * dwx + b * sw
    decreases |xs|
  {
    if |xs| == 0 {
      sw, dwx, dwy := 0.0, 0.0, 0.0;
    } else {
      LineLast(xs, ys, a, b);
      var sw0, dwx0, dwy0 := LineDot(Init(ws), Init(xs), Init(ys), a, b);
      sw, dwx, dwy := sw0 + Last(ws), dwx0 + Last(ws) * Last(xs), dwy0 + Last(ws) * Last(ys);
      LineDotStep(dwy0, dwx0, sw0, Last(ws), Last(xs), Last(ys), a, b, dwy, dwx, sw);
    }
  }

  lemma {:induction false} LineLast(xs: seq<real>, ys: seq<real>, a: real, b: real)
    requires OnLine(xs, ys, a, b) && |xs| > 0
    ensures |Init(xs)| + 1 == |xs| && OnLine(Init(xs), Init(ys), a, b) && Last(ys) == a * Last(xs) + b
  {
    assert OnLine(Init(xs), Init(ys), a, b);
  }

  lemma {:induction false} LineMoments(xs: seq<real>, ys: seq<real>, a: real, b: real)
    requires OnLine(xs, ys, a, b) && |xs| > 0
    ensures LineFit(xs, ys, a, b)
  {
    var sx, sy := LineSum(xs, ys, a, b);
    var sx', dxx, dxy := LineDot(xs, xs, ys, a, b);
    LineMeanFit(xs, ys, a, b, sx, sy);
    LineCoMomentFit(xs, ys, a, b, sx, sy, dxx, dxy);
  }

  lemma {:induction false} LineMeanFit(xs: seq<real>, ys: seq<real>, a: real, b: real, sx: real, sy: real)
    requires |xs| == |ys| > 0 && sx == Sum(xs) && sy == Sum(ys) && sy == a * sx + b * (|xs| as real)
    ensures Mean(ys) == a * Mean(xs) + b
  {
    LineMeanOf(|xs|, sx, sy, a, b, Mean(xs), Mean(ys));
  }

  lemma {:induction false} LineCoMomentFit(xs: seq<real>, ys: seq<real>, a: real, b: real, sx: real, sy: real, dxx: real, dxy: real)
    requires |xs| == |ys| > 0 && sx == Sum(xs) && sy == Sum(ys) && dxx == Dot(xs, xs) && dxy == Dot(xs, ys)
    requires sy == a * sx + b * (|xs| as real) && dxy == a * dxx + b * sx
    ensures CoMoment(xs, ys) == a * Variation(xs)
  {
    LineCoDevOf(|xs|, sx, sy, dxx, dxy, a, b, CoMoment(xs, ys), Variation(xs));
  }

  /**
   The least-squares fit of exact line data is the line: the co-moment over
   the variation is the slope a, and the mean of the ys less a times the
   mean of the xs is the intercept b.
   */
  lemma {:induction false} LineRecovered(xs: seq<real>, ys: seq<real>, a: real, b: real)
    requires OnLine(xs, ys, a, b) && Spread(xs)
    ensures Variation(xs) > 0.0
    ensures CoMoment(xs, ys) / Variation(xs) == a && Mean(ys) - a * Mean(xs) == b
  {
    SpreadIffVaries(xs);
    SpreadHasTwo(xs);
    LineMoments(xs, ys, a, b);
    FitOfLineFit(xs, ys, a, b);
  }

  lemma {:induction false} FitOfLineFit(xs: seq<real>, ys: seq<real>, a: real, b: real)
    requires |xs| == |ys| && LineFit(xs, ys, a, b) && Variation(xs) > 0.0
    ensures CoMoment(xs, ys) / Variation(xs) == a && Mean(ys) - a * Mean(xs) == b
  {
    FitOfLine(CoMoment(xs, ys), Variation(xs), Mean(xs), Mean(ys), a, b);
  }

  // ---------------------------------------------------------------------
  // Algebra over reals

  /** The fit from moments c = a v and my = a mx + b: slope c / v and intercept my - a mx. */
  lemma FitOfLine(c: real, v: real, mx: real, my: real, a: real, b: real)
    requires v != 0.0 && c == a * v && my == a * mx + b
    ensures c / v == a && my - a * mx == b
  {
  }

  /**
   The step a push adds to the variation is never negative, is zero when
   the value equals the mean, and is positive when it differs from the mean
   of at least one earlier value.
   */
  lemma {:induction false} SquareStep(m: real, n: nat, x: real)
    ensures CoStep(m, m, n, x, x) >= 0.0
    ensures m == x ==> CoStep(m, m, n, x, x) == 0.0
    ensures n > 0 && m != x ==> CoStep(m, m, n, x, x) > 0.0
  {
    var d, r := m - x, (n as real) / ((n + 1) as real);
    ScaledSquare(d, r, CoStep(m, m, n, x, x));
    if n > 0 && m != x {
      PositiveScaledSquare(d, r, CoStep(m, m, n, x, x));
    }
  }

  lemma ScaledSquare(d: real, r: real, t: real)
    requires r >= 0.0 && t == d * d * r
    ensures t >= 0.0
  {
  }

  lemma PositiveScaledSquare(d: real, r: real, t: real)
    requires d != 0.0 && r > 0.0 && t == d * d * r
    ensures t > 0.0
  {
    var sq := d * d;
    SquarePositive(d, sq);
    PositiveProduct(sq, r, t);
  }

  lemma SquarePositive(d: real, sq: real)
    requires d != 0.0 && sq == d * d
    ensures sq > 0.0
  {
    if d > 0.0 {
      PositiveProduct(d, d, sq);
    } else {
      PositiveProduct(-d, -d, sq);
    }
  }

  /** A non-negative value divided by a positive one stays non-negative. */
  lemma QuotientSign(a: real, k: real)
    ensures k > 0.0 && a >= 0.0 ==> a / k >= 0.0
  {
  }

  /** Division undoes multiplication by a non-zero value. */
  lemma QuotientOf(p: real, a: real, q: real)
    requires a != 0.0 && p == q * a
    ensures p / a == q
  {
  }

  lemma PositiveProduct(a: real, b: real, p: real)
    requires a > 0.0 && b > 0.0 && p == a * b
    ensures p > 0.0
  {
  }

  lemma {:induction false} LineSumStep(sx: real, sy: real, x: real, y: real, a: real, b: real, n: nat,
                                       sx': real, sy': real, n': nat)
    requires sy == a * sx + b * (n as real) && y == a * x + b
    requires sx' == sx + x && sy' == sy + y && n' == n + 1
    ensures sy' == a * sx' + b * (n' as real)
  {
  }

  lemma LineDotStep(dwy: real, dwx: real, sw: real, w: real, x: real, y: real, a: real, b: real,
                    dwy': real, dwx': real, sw': real)
    requires dwy == a * dwx + b * sw && y == a * x + b
    requires dwy' == dwy + w * y && dwx' == dwx + w * x && sw' == sw + w
    ensures dwy' == a * dwx' + b * sw'
  {
    assert w * y == a * (w * x) + b * w;
  }

  /** The mean of n values on the line, from the raw sums. */
  lemma {:induction false} LineMeanOf(n: nat, sx: real, sy: real, a: real, b: real, mx: real, my: real)
    requires n > 0 && sy == a * sx + b * (n as real)
    requires mx == MeanOf(n, sx) && my == MeanOf(n, sy)
    ensures my == a * mx + b
  {
    var k := n as real;
    assert sy / k == a * (sx / k) + b;
  }

  /** The co-moment of n pairs on the line, from the raw sums. */
  lemma {:induction false} LineCoDevOf(n: nat, sx: real, sy: real, dxx: real, dxy: real, a: real, b: real, c: real, v: real)
    requires n > 0 && sy == a * sx + b * (n as real) && dxy == a * dxx + b * sx
    requires c == CoDev(n, sx, sy, dxy) && v == CoDev(n, sx, sx, dxx)
    ensures c == a * v
  {
    var k := n as real;
    assert sx * sy / k == a * (sx * sx / k) + b * sx;
  }

  lemma {:induction false} PoolingOne(n: nat, mx: real, my: real, x: real, y: real)
    ensures Pooling(n, 1, x - mx, y - my) == CoStep(mx, my, n, x, y)
  {
    var k := (n + 1) as real;
    assert ((n * 1) as real) * (x - mx) * (y - my) == (mx - x) * (my - y) * (n as real);
    assert (mx - x) * (my - y) * (n as real) / k == (mx - x) * (my - y) * ((n as real) / k);
  }

  /** The push increment does not depend on which variable of the pair comes first. */
  lemma {:induction false} CoStepSymmetric(mx: real, my: real, n: nat, x: real, y: real)
    ensures CoStep(mx, my, n, x, y) == CoStep(my, mx, n, y, x)
  {
  }

  /** The pooling term does not depend on which variable of the pair comes first. */
  lemma {:induction false} PoolingSymmetric(na: nat, nb: nat, dx: real, dy: real)
    requires na + nb > 0
    ensures Pooling(na, nb, dx, dy) == Pooling(na, nb, dy, dx)
  {
    assert ((na * nb) as real) * dx * dy == ((na * nb) as real) * dy * dx;
  }

  /** Both differences of means may be taken the other way round: their product is unchanged. */
  lemma {:induction false} PoolingFlip(na: nat, nb: nat, dx: real, dy: real, ex: real, ey: real)
    requires na + nb > 0 && ex == -dx && ey == -dy
    ensures Pooling(na, nb, dx, dy) == Pooling(na, nb, ex, ey)
  {
    assert ((na * nb) as real) * dx * dy == ((na * nb) as real) * ex * ey;
  }

  lemma {:induction false} PoolAlgebra(na: nat, nb: nat, sx: real, sy: real, su: real, sv: real, dxy: real, duv: real)
    requires na + nb > 0
    requires na == 0 ==> sx == 0.0 && sy == 0.0 && dxy == 0.0
    requires nb == 0 ==> su == 0.0 && sv == 0.0 && duv == 0.0
    ensures CoDev(na + nb, sx + su, sy + sv, dxy + duv)
            == CoDev(na, sx, sy, dxy) + CoDev(nb, su, sv, duv)
               + Pooling(na, nb, MeanOf(nb, su) - MeanOf(na, sx), MeanOf(nb, sv) - MeanOf(na, sy))
  {
    if na == 0 {
      assert na + nb == nb && sx + su == su && sy + sv == sv && dxy + duv == duv;
      PoolingEmpty(na, nb, MeanOf(nb, su) - MeanOf(na, sx), MeanOf(nb, sv) - MeanOf(na, sy));
    } else if nb == 0 {
      assert na + nb == na && sx + su == sx && sy + sv == sy && dxy + duv == dxy;
      PoolingEmpty(na, nb, MeanOf(nb, su) - MeanOf(na, sx), MeanOf(nb, sv) - MeanOf(na, sy));
    } else {
      PoolNonEmpty(na, nb, sx, sy, su, sv, dxy, duv);
    }
  }

  lemma {:induction false} PoolNonEmpty(na: nat, nb: nat, sx: real, sy: real, su: real, sv: real, dxy: real, duv: real)
    requires na > 0 && nb > 0
    ensures CoDev(na + nb, sx + su, sy + sv, dxy + duv)
            == CoDev(na, sx, sy, dxy) + CoDev(nb, su, sv, duv)
               + Pooling(na, nb, MeanOf(nb, su) - MeanOf(na, sx), MeanOf(nb, sv) - MeanOf(na, sy))
  {
    CoDevByMeans(na, sx, sy, dxy);
    CoDevByMeans(nb, su, sv, duv);
    CoDevByMeans(na + nb, sx + su, sy + sv, dxy + duv);
    PooledMeans(na, nb, sx, sy, su, sv);
  }

  lemma {:induction false} PoolingEmpty(na: nat, nb: nat, dx: real, dy: real)
    requires na + nb > 0 && (na == 0 || nb == 0)
    ensures Pooling(na, nb, dx, dy) == 0.0
  {
    assert na * nb == 0;
    assert ((na * nb) as real) * dx == 0.0;
  }

  lemma {:induction false} CoDevByMeans(n: nat, sx: real, sy: real, sxy: real)
    requires n > 0
    ensures CoDev(n, sx, sy, sxy) == sxy - (n as real) * MeanOf(n, sx) * MeanOf(n, sy)
  {
    var mx, my := MeanOf(n, sx), MeanOf(n, sy);
    CountTimesMean(n, sx);
    CountTimesMean(n, sy);
    assert sx * sy == ((n as real) * mx * my) * (n as real);
  }

  lemma {:induction false} PooledMeans(na: nat, nb: nat, sx: real, sy: real, su: real, sv: real)
    requires na > 0 && nb > 0
    ensures ((na + nb) as real) * MeanOf(na + nb, sx + su) * MeanOf(na + nb, sy + sv)
            == (na as real) * MeanOf(na, sx) * MeanOf(na, sy) + (nb as real) * MeanOf(nb, su) * MeanOf(nb, sv)
               - Pooling(na, nb, MeanOf(nb, su) - MeanOf(na, sx), MeanOf(nb, sv) - MeanOf(na, sy))
  {
    WeightedMeans(na, nb, sx, su);
    WeightedMeans(na, nb, sy, sv);
    PooledMeanProducts(na, nb, MeanOf(na, sx), MeanOf(na, sy), MeanOf(nb, su), MeanOf(nb, sv),
                       MeanOf(na + nb, sx + su), MeanOf(na + nb, sy + sv));
  }

  /** The count of a concatenation times its mean is the sum of the parts' counts times their means. */
  lemma {:induction false} WeightedMeans(na: nat, nb: nat, sa: real, sb: real)
    requires na > 0 && nb > 0
    ensures ((na + nb) as real) * MeanOf(na + nb, sa + sb) == (na as real) * MeanOf(na, sa) + (nb as real) * MeanOf(nb, sb)
  {
    CountTimesMean(na, sa); CountTimesMean(nb, sb); CountTimesMean(na + nb, sa + sb);
  }

  lemma {:induction false} PooledMeanProducts(na: nat, nb: nat, mx: real, my: real, mu: real, mv: real, px: real, py: real)
    requires na > 0 && nb > 0
    requires ((na + nb) as real) * px == (na as real) * mx + (nb as real) * mu
    requires ((na + nb) as real) * py == (na as real) * my + (nb as real) * mv
    ensures ((na + nb) as real) * px * py
            == (na as real) * mx * my + (nb as real) * mu * mv - Pooling(na, nb, mu - mx, mv - my)
  {
    ProductCast(na, nb);
    PooledProducts(na as real, nb as real, (na + nb) as real, (na * nb) as real, mx, my, mu, mv, px, py);
  }

  lemma ProductCast(i: nat, j: nat)
    ensures (i * j) as real == (i as real) * (j as real)
  {
  }

  /** PooledMeanProducts over the reals, with the counts a and b, their sum n and their product ab as parameters. */
  lemma PooledProducts(a: real, b: real, n: real, ab: real, mx: real, my: real, mu: real, mv: real, px: real, py: real)
    requires a > 0.0 && b > 0.0 && n == a + b && ab == a * b
    requires n * px == a * mx + b * mu && n * py == a * my + b * mv
    ensures n * px * py == a * mx * my + b * mu * mv - ab * (mu - mx) * (mv - my) / n
  {
    var q := ab * (mu - mx) * (mv - my);
    var w := a * mx * my + b * mu * mv;
    var t := n * px * py;
    assert (n * px) * (n * py) == n * w - q;
    Regroup(n, px, py);
    CancelCount(n, t, w, q);
  }

  lemma Regroup(n: real, px: real, py: real)
    ensures (n * px) * (n * py) == n * (n * px * py)
  {
  }

  /** Dividing n t = n w - q through by a positive n. */
  lemma CancelCount(n: real, t: real, w: real, q: real)
    requires n > 0.0 && n * t == n * w - q
    ensures t == w - q / n
  {
    var r := q / n;
    assert r * n == q;
    assert n * t == n * (w - r);
  }
}
