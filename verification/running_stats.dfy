/**
 The single-variable moment accumulator: a count, the running mean M1, the
 central-moment sums M2, M3 and M4, and the smallest and largest value
 pushed.  `push` is Welford's update extended to the fourth moment;
 `operator+` merges two accumulators with the pairwise combination
 identities.  Doubles are modelled as reals and the `long` count as a nat.

 Each moment's update is its own function of the old values, so a push
 reads every lower moment as it was before the push -- which the source
 gets by updating M4 before M3 and M3 before M2.

 `Moments` relates a state to the ghost history of values it has seen
 (count, mean and M2); `Extrema` does the same for min and max.
 */
module RunningStats {
  import opened Deviations

  datatype Stats = Stats(n: nat, m1: real, m2: real, m3: real, m4: real, minV: real, maxV: real)

  /** The state `clear` (and the constructor) establishes. */
  function Clear(): (r: Stats)
    ensures r.n == 0 && r.m1 == 0.0 && r.m2 == 0.0 && r.m3 == 0.0 && r.m4 == 0.0
    ensures r.minV == 0.0 && r.maxV == 0.0
  {
    Stats(0, 0.0, 0.0, 0.0, 0.0, 0.0, 0.0)
  }

  // ---------------------------------------------------------------------
  // push: each moment after one more value x, from the count n1 and the
  // moments before it.

  function PushMean(n1: nat, m1: real, x: real): (m: real)
  {
    var delta := x - m1;
    var deltaN := delta / ((n1 + 1) as real);
    m1 + deltaN
  }

  function PushM2(n1: nat, m1: real, m2: real, x: real): (m: real)
  {
    var delta := x - m1;
    var deltaN := delta / ((n1 + 1) as real);
    var term1 := delta * deltaN * (n1 as real);
    m2 + term1
  }

  function PushM3(n1: nat, m1: real, m2: real, m3: real, x: real): (m: real)
  {
    var n := n1 + 1;
    var delta := x - m1;
    var deltaN := delta / (n as real);
    var term1 := delta * deltaN * (n1 as real);
    m3 + term1 * deltaN * ((n - 2) as real) - 3.0 * deltaN * m2
  }

  function PushM4(n1: nat, m1: real, m2: real, m3: real, m4: real, x: real): (m: real)
  {
    var n := n1 + 1;
    var delta := x - m1;
    var deltaN := delta / (n as real);
    var deltaN2 := deltaN * deltaN;
    var term1 := delta * deltaN * (n1 as real);
    m4 + term1 * deltaN2 * ((n * n - 3 * n + 3) as real) + 6.0 * deltaN2 * m2 - 4.0 * deltaN * m3
  }

  /** The first value sets the minimum; a later one lowers it when smaller. */
  function PushMin(n1: nat, minV: real, x: real): (r: real)
    ensures n1 == 0 ==> r == x
    ensures n1 > 0 ==> r <= minV && r <= x && (r == minV || r == x)
  {
    var minV := if n1 + 1 == 1 then x else minV;
    if minV > x then x else minV
  }

  /** The first value sets the maximum; a later one raises it when larger. */
  function PushMax(n1: nat, maxV: real, x: real): (r: real)
    ensures n1 == 0 ==> r == x
    ensures n1 > 0 ==> r >= maxV && r >= x && (r == maxV || r == x)
  {
    var maxV := if n1 + 1 == 1 then x else maxV;
    if maxV < x then x else maxV
  }

  /** One `push(x)`. */
  function Push(s: Stats, x: real): (r: Stats)
    ensures r.n == s.n + 1
  {
    Stats(s.n + 1,
          PushMean(s.n, s.m1, x),
          PushM2(s.n, s.m1, s.m2, x),
          PushM3(s.n, s.m1, s.m2, s.m3, x),
          PushM4(s.n, s.m1, s.m2, s.m3, s.m4, x),
          PushMin(s.n, s.minV, x),
          PushMax(s.n, s.maxV, x))
  }

  /** The values of xs pushed one after another, first to last. */
  function PushAll(s: Stats, xs: seq<real>): (r: Stats)
    ensures r.n == s.n + |xs|
    decreases |xs|
  {
    if |xs| == 0 then s else Push(PushAll(s, Init(xs)), Last(xs))
  }

  /** The state after pushing xs into a cleared accumulator. */
  function Accumulate(xs: seq<real>): (r: Stats)
    ensures r.n == |xs|
  {
    PushAll(Clear(), xs)
  }

  /** `push(double[])`: a loop pushing the elements in order. */
  method PushArray(s: Stats, xs: seq<real>) returns (r: Stats)
    ensures r == PushAll(s, xs)
  {
    r := s;
    var i := 0;
    while i < |xs|
      invariant 0 <= i <= |xs|
      invariant r == PushAll(s, xs[..i])
    {
      AppendOne(xs[..i], xs[i]);
      assert xs[..i + 1] == xs[..i] + [xs[i]];
      r := Push(r, xs[i]);
      i := i + 1;
    }
    assert xs[..i] == xs;
  }

  // ---------------------------------------------------------------------
  // Accessors

  function Mean(s: Stats): (m: real)
  {
    s.m1
  }

  /**
   The sample variance M2 / (n - 1); a single value would divide by zero.
   Scaled back by n - 1 it gives M2, and it is non-negative whenever M2
   is and more than one value has been seen.
   */
  function Variance(s: Stats): (v: real)
    requires s.n != 1
    ensures v * ((s.n as real) - 1.0) == s.m2
    ensures s.n > 1 && s.m2 >= 0.0 ==> v >= 0.0
  {
    QuotientSign(s.m2, (s.n as real) - 1.0);
    s.m2 / ((s.n as real) - 1.0)
  }

  /** The standard deviation, with the square root supplied by the caller: for a true root it squares back to the variance. */
  function StdDev(s: Stats, sqrt: real -> real): (sd: real)
    requires s.n != 1
    ensures SquareRoot(sqrt) && Variance(s) >= 0.0 ==> sd >= 0.0 && sd * sd == Variance(s)
  {
    sqrt(Variance(s))
  }

  /**
   `skewness`: sqrt(n) M3 / M2^1.5.  Over the reals M2^1.5 is M2 sqrt(M2),
   so the quotient is taken by M2 and then by sqrt(M2), with the square
   root supplied by the caller.  Multiplied back by M2 sqrt(M2) it gives
   sqrt(n) M3.
   */
  function Skewness(s: Stats, sqrt: real -> real): (g: real)
    requires s.m2 != 0.0 && sqrt(s.m2) != 0.0
    ensures g * s.m2 * sqrt(s.m2) == sqrt(s.n as real) * s.m3
  {
    var t := sqrt(s.n as real) * s.m3 / s.m2;
    assert t * s.m2 == sqrt(s.n as real) * s.m3;
    t / sqrt(s.m2)
  }

  /** `kurtosis`: the excess kurtosis n M4 / M2^2 - 3, dividing by M2 twice; adding 3 back and multiplying by M2^2 gives n M4. */
  function Kurtosis(s: Stats): (k: real)
    requires s.m2 != 0.0
    ensures (k + 3.0) * s.m2 * s.m2 == (s.n as real) * s.m4
  {
    var t := (s.n as real) * s.m4 / s.m2;
    assert t * s.m2 == (s.n as real) * s.m4;
    t / s.m2 - 3.0
  }

  function Min(s: Stats): (lo: real)
  {
    s.minV
  }

  function Max(s: Stats): (hi: real)
  {
    s.maxV
  }

  // ---------------------------------------------------------------------
  // operator+: each moment of the union of a group of na values with a
  // group of nb values, from the moments of the two groups.

  function MergeMean(na: nat, nb: nat, a1: real, b1: real): (m: real)
    requires na + nb > 0
  {
    ((na as real) * a1 + (nb as real) * b1) / ((na + nb) as real)
  }

  function MergeM2(na: nat, nb: nat, a1: real, a2: real, b1: real, b2: real): (m: real)
    requires na + nb > 0
  {
    var delta := b1 - a1;
    var delta2 := delta * delta;
    a2 + b2 + delta2 * (na as real) * (nb as real) / ((na + nb) as real)
  }

  function MergeM3(na: nat, nb: nat, a1: real, a2: real, a3: real, b1: real, b2: real, b3: real): (m: real)
    requires na + nb > 0
  {
    var n := na + nb;
    var an, bn := na as real, nb as real;
    var delta := b1 - a1;
    var delta2 := delta * delta;
    var delta3 := delta * delta2;
    var m3 := a3 + b3 + delta3 * an * bn * ((na - nb) as real) / ((n * n) as real);
    m3 + 3.0 * delta * (an * b2 - bn * a2) / (n as real)
  }

  function MergeM4(na: nat, nb: nat, a1: real, a2: real, a3: real, a4: real,
                   b1: real, b2: real, b3: real, b4: real): (m: real)
    requires na + nb > 0
  {
    var n := na + nb;
    var an, bn := na as real, nb as real;
    var delta := b1 - a1;
    var delta2 := delta * delta;
    var delta4 := delta2 * delta2;
    var m4 := a4 + b4 + delta4 * an * bn * ((na * na - na * nb + nb * nb) as real) / ((n * n * n) as real);
    m4 + 6.0 * delta2 * (an * an * b2 + bn * bn * a2) / ((n * n) as real)
       + 4.0 * delta * (an * b3 - bn * a3) / (n as real)
  }

  /**
   `a + b`.  The combined count is zero only when both are empty, where the
   mean would divide by zero.  The extrema are never assigned, so the result
   keeps the value 0 the constructor gives them.
   */
  function Merge(a: Stats, b: Stats): (r: Stats)
    requires a.n + b.n > 0
    ensures r.n == a.n + b.n
    ensures r.minV == 0.0 && r.maxV == 0.0
  {
    Stats(a.n + b.n,
          MergeMean(a.n, b.n, a.m1, b.m1),
          MergeM2(a.n, b.n, a.m1, a.m2, b.m1, b.m2),
          MergeM3(a.n, b.n, a.m1, a.m2, a.m3, b.m1, b.m2, b.m3),
          MergeM4(a.n, b.n, a.m1, a.m2, a.m3, a.m4, b.m1, b.m2, b.m3, b.m4),
          0.0, 0.0)
  }

  /** The order of the operands of `a + b` does not matter. */
  lemma MergeCommutes(a: Stats, b: Stats)
    requires a.n + b.n > 0
    ensures Merge(a, b) == Merge(b, a)
  {
    MergeMeanCommutes(a.n, b.n, a.m1, b.m1);
    MergeM2Commutes(a.n, b.n, a.m1, a.m2, b.m1, b.m2);
    MergeM3Commutes(a.n, b.n, a.m1, a.m2, a.m3, b.m1, b.m2, b.m3);
    MergeM4Commutes(a.n, b.n, a.m1, a.m2, a.m3, a.m4, b.m1, b.m2, b.m3, b.m4);
  }

  lemma MergeMeanCommutes(na: nat, nb: nat, a1: real, b1: real)
    requires na + nb > 0
    ensures MergeMean(na, nb, a1, b1) == MergeMean(nb, na, b1, a1)
  {
    assert (na + nb) as real == (nb + na) as real;
  }

  lemma MergeM2Commutes(na: nat, nb: nat, a1: real, a2: real, b1: real, b2: real)
    requires na + nb > 0
    ensures MergeM2(na, nb, a1, a2, b1, b2) == MergeM2(nb, na, b1, b2, a1, a2)
  {
    var d := b1 - a1;
    assert (a1 - b1) * (a1 - b1) == d * d;
    assert d * d * (na as real) * (nb as real) == d * d * (nb as real) * (na as real);
  }

  lemma MergeM3Commutes(na: nat, nb: nat, a1: real, a2: real, a3: real, b1: real, b2: real, b3: real)
    requires na + nb > 0
    ensures MergeM3(na, nb, a1, a2, a3, b1, b2, b3) == MergeM3(nb, na, b1, b2, b3, a1, a2, a3)
  {
    M3Form(na, nb, a1, a2, a3, b1, b2, b3);
    M3Form(nb, na, b1, b2, b3, a1, a2, a3);
    SquareSwap(na, nb);
    SquareOf(na + nb, (na + nb) as real);
    M3Swap(na as real, nb as real, b1 - a1, a1 - b1, (na - nb) as real, (nb - na) as real,
           ((na + nb) * (na + nb)) as real, ((nb + na) * (nb + na)) as real, (na + nb) as real, (nb + na) as real,
           a2, a3, b2, b3);
  }

  lemma SquareSwap(na: nat, nb: nat)
    ensures ((nb + na) * (nb + na)) as real == ((na + nb) * (na + nb)) as real
  {
    assert nb + na == na + nb;
  }

  /** MergeM3 with the casts, the difference of the means and the denominators as parameters. */
  function M3Terms(an: real, bn: real, d: real, k: real, n2: real, n1: real, a2: real, a3: real, b2: real, b3: real): (m: real)
    requires n2 > 0.0 && n1 > 0.0
  {
    a3 + b3 + d * (d * d) * an * bn * k / n2 + 3.0 * d * (an * b2 - bn * a2) / n1
  }

  lemma M3Form(na: nat, nb: nat, a1: real, a2: real, a3: real, b1: real, b2: real, b3: real)
    requires na + nb > 0
    ensures MergeM3(na, nb, a1, a2, a3, b1, b2, b3) ==
            M3Terms(na as real, nb as real, b1 - a1, (na - nb) as real, ((na + nb) * (na + nb)) as real, (na + nb) as real, a2, a3, b2, b3)
  {
  }

  lemma M3Swap(an: real, bn: real, d: real, e: real, k: real, k': real, n2: real, n2': real, n1: real, n1': real,
               a2: real, a3: real, b2: real, b3: real)
    requires n2 > 0.0 && n1 > 0.0 && e == -d && k' == -k && n2' == n2 && n1' == n1
    ensures M3Terms(an, bn, d, k, n2, n1, a2, a3, b2, b3) == M3Terms(bn, an, e, k', n2', n1', b2, b3, a2, a3)
  {
    assert d * (d * d) * an * bn * k == e * (e * e) * bn * an * k';
    assert 3.0 * d * (an * b2 - bn * a2) == 3.0 * e * (bn * a2 - an * b2);
  }

  lemma MergeM4Commutes(na: nat, nb: nat, a1: real, a2: real, a3: real, a4: real,
                        b1: real, b2: real, b3: real, b4: real)
    requires na + nb > 0
    ensures MergeM4(na, nb, a1, a2, a3, a4, b1, b2, b3, b4) == MergeM4(nb, na, b1, b2, b3, b4, a1, a2, a3, a4)
  {
    M4Form(na, nb, a1, a2, a3, a4, b1, b2, b3, b4);
    M4Form(nb, na, b1, b2, b3, b4, a1, a2, a3, a4);
    M4Swap(na as real, nb as real, b1 - a1, a1 - b1,
           (na * na - na * nb + nb * nb) as real, (nb * nb - nb * na + na * na) as real,
           ((na + nb) * (na + nb) * (na + nb)) as real, ((nb + na) * (nb + na) * (nb + na)) as real,
           ((na + nb) * (na + nb)) as real, ((nb + na) * (nb + na)) as real, (na + nb) as real, (nb + na) as real,
           a2, a3, a4, b2, b3, b4);
  }

  /** MergeM4 with the casts, the difference of the means and the denominators as parameters. */
  function M4Terms(an: real, bn: real, d: real, k: real, n3: real, n2: real, n1: real,
                   a2: real, a3: real, a4: real, b2: real, b3: real, b4: real): (m: real)
    requires n3 > 0.0 && n2 > 0.0 && n1 > 0.0
  {
    a4 + b4 + (d * d) * (d * d) * an * bn * k / n3 + 6.0 * (d * d) * (an * an * b2 + bn * bn * a2) / n2
    + 4.0 * d * (an * b3 - bn * a3) / n1
  }

  lemma M4Form(na: nat, nb: nat, a1: real, a2: real, a3: real, a4: real, b1: real, b2: real, b3: real, b4: real)
    requires na + nb > 0
    ensures MergeM4(na, nb, a1, a2, a3, a4, b1, b2, b3, b4) ==
            M4Terms(na as real, nb as real, b1 - a1, (na * na - na * nb + nb * nb) as real,
                    ((na + nb) * (na + nb) * (na + nb)) as real, ((na + nb) * (na + nb)) as real, (na + nb) as real,
                    a2, a3, a4, b2, b3, b4)
  {
  }

  lemma M4Swap(an: real, bn: real, d: real, e: real, k: real, k': real, n3: real, n3': real,
               n2: real, n2': real, n1: real, n1': real, a2: real, a3: real, a4: real, b2: real, b3: real, b4: real)
    requires n3 > 0.0 && n2 > 0.0 && n1 > 0.0 && e == -d && k' == k && n3' == n3 && n2' == n2 && n1' == n1
    ensures M4Terms(an, bn, d, k, n3, n2, n1, a2, a3, a4, b2, b3, b4) == M4Terms(bn, an, e, k', n3', n2', n1', b2, b3, b4, a2, a3, a4)
  {
    assert e * e == d * d;
    assert (d * d) * (d * d) * an * bn * k == (e * e) * (e * e) * bn * an * k';
    assert 4.0 * d * (an * b3 - bn * a3) == 4.0 * e * (bn * a3 - an * b3);
  }

  // ---------------------------------------------------------------------
  // Relations to the values pushed

  /** s has seen exactly the values xs: its count, mean and M2 are theirs. */
  predicate Moments(s: Stats, xs: seq<real>)
  {
    s.n == |xs| && s.m1 == Deviations.Mean(xs) && s.m2 == Variation(xs)
  }

  /** s has seen as many values as xs holds, and once one has been pushed min and max are pushed values bounding all of them. */
  predicate Extrema(s: Stats, xs: seq<real>)
  {
    s.n == |xs| &&
    (|xs| > 0 ==> s.minV in xs && s.maxV in xs && forall i :: 0 <= i < |xs| ==> s.minV <= xs[i] <= s.maxV)
  }

  /** The state holding exactly one value. */
  function Single(x: real): (r: Stats)
    ensures Moments(r, [x]) && Extrema(r, [x])
  {
    SingletonCoMoment(x, x);
    Stats(1, x, 0.0, 0.0, 0.0, x, x)
  }

  lemma ClearMoments()
    ensures Moments(Clear(), []) && Extrema(Clear(), [])
  {
    EmptySums([], []);
  }

  /** The first push sets min and max to the value pushed. */
  lemma FirstPush(x: real)
    ensures Push(Clear(), x) == Single(x)
  {
  }

  /**
   Two different values: the distribution is symmetric, so the skewness is
   0, and its excess kurtosis is -2, the smallest there is.
   */
  lemma TwoValuesShape(x: real, y: real, sqrt: real -> real)
    requires x != y && SquareRoot(sqrt)
    ensures var s := Push(Push(Clear(), x), y);
            s.m2 > 0.0 && sqrt(s.m2) > 0.0 && Skewness(s, sqrt) == 0.0 && Kurtosis(s) == -2.0
  {
    FirstPush(x);
    var s := Push(Single(x), y);
    var d := y - x;
    var q := d * d;
    SquarePositive(d, q);
    assert s.m2 == q / 2.0 by {
      assert s.m2 == PushM2(1, x, 0.0, y);
      assert d * (d / 2.0) * 1.0 == q / 2.0;
    }
    assert s.m3 == 0.0;
    assert s.m4 == q * q / 8.0 by {
      assert s.m4 == PushM4(1, x, 0.0, 0.0, 0.0, y);
      assert d * (d / 2.0) * 1.0 * ((d / 2.0) * (d / 2.0)) * 1.0 == q * q / 8.0;
    }
    assert sqrt(s.m2) > 0.0 by {
      assert sqrt(s.m2) >= 0.0 && sqrt(s.m2) * sqrt(s.m2) == s.m2;
    }
    KurtosisOfTwo(s, q);
    assert Push(Push(Clear(), x), y) == s;
  }

  lemma KurtosisOfTwo(s: Stats, q: real)
    requires s.n == 2 && q > 0.0 && s.m2 == q / 2.0 && s.m4 == q * q / 8.0
    ensures s.m2 != 0.0 && Kurtosis(s) == -2.0
  {
    var top := (s.n as real) * s.m4;
    assert top == s.m2 * s.m2;
    var once := top / s.m2;
    assert once == s.m2;
    assert once / s.m2 == 1.0;
  }

  /** After a push the state has seen one more value: its mean and M2 are those of xs + [x]. */
  lemma {:induction false} PushMoments(s: Stats, xs: seq<real>, x: real)
    requires Moments(s, xs)
    ensures Moments(Push(s, x), xs + [x])
  {
    PushLowMoments(s.n, s.m1, s.m2, x);
    MomentsStep(s, Push(s, x), xs, x);
  }

  /** A push moves the mean by (x - M1) / (n + 1) and adds (M1 - x)^2 n / (n + 1) to M2. */
  lemma {:induction false} PushLowMoments(n1: nat, m1: real, m2: real, x: real)
    ensures PushMean(n1, m1, x) == m1 + (x - m1) / ((n1 + 1) as real)
    ensures PushM2(n1, m1, m2, x) == m2 + CoStep(m1, m1, n1, x, x)
  {
    var n := (n1 + 1) as real;
    var delta := x - m1;
    assert delta * (delta / n) * (n1 as real) == (m1 - x) * (m1 - x) * ((n1 as real) / n);
  }

  lemma {:induction false} MomentsStep(s: Stats, t: Stats, xs: seq<real>, x: real)
    requires Moments(s, xs) && t.n == s.n + 1
    requires t.m1 == s.m1 + (x - s.m1) / ((s.n + 1) as real)
    requires t.m2 == s.m2 + CoStep(s.m1, s.m1, s.n, x, x)
    ensures Moments(t, xs + [x])
  {
    MeanAppend(xs, x);
    VariationAppend(xs, x);
  }

  /** A push never decreases M2. */
  lemma {:induction false} PushM2Grows(s: Stats, x: real)
    ensures Push(s, x).m2 >= s.m2
  {
    PushLowMoments(s.n, s.m1, s.m2, x);
    SquareStep(s.m1, s.n, x);
  }

  /** After a push, min and max are pushed values and bound every value pushed. */
  lemma {:induction false} PushExtrema(s: Stats, xs: seq<real>, x: real)
    requires Extrema(s, xs)
    ensures Extrema(Push(s, x), xs + [x])
  {
    var t := Push(s, x);
    var ys := xs + [x];
    assert ys[|xs|] == x;
    if |xs| > 0 {
      forall i | 0 <= i < |ys|
        ensures t.minV <= ys[i] <= t.maxV
      {
        if i < |xs| {
          assert ys[i] == xs[i];
        }
      }
    }
  }

  /** Pushing ys into a state that has seen xs gives a state that has seen xs + ys. */
  lemma {:induction false} PushAllTracks(s: Stats, xs: seq<real>, ys: seq<real>)
    requires Moments(s, xs) && Extrema(s, xs)
    ensures Moments(PushAll(s, ys), xs + ys) && Extrema(PushAll(s, ys), xs + ys)
    decreases |ys|
  {
    if |ys| == 0 {
      assert xs + ys == xs;
    } else {
      PushAllTracks(s, xs, Init(ys));
      InitOfConcat(xs, ys);
      Split(xs + ys);
      PushMoments(PushAll(s, Init(ys)), xs + Init(ys), Last(ys));
      PushExtrema(PushAll(s, Init(ys)), xs + Init(ys), Last(ys));
    }
  }

  /**
   Pushing xs into a cleared accumulator leaves the mean of xs in M1, its
   sum of squared deviations in M2, and min and max bounding the values.
   */
  lemma {:induction false} AccumulateTracks(xs: seq<real>)
    ensures Moments(Accumulate(xs), xs) && Extrema(Accumulate(xs), xs)
  {
    ClearMoments();
    PushAllTracks(Clear(), [], xs);
    assert [] + xs == xs;
  }

  /** M2 is never negative, and for two or more values the variance is M2 / (n - 1) of the history. */
  lemma {:induction false} VarianceOfHistory(s: Stats, xs: seq<real>)
    requires Moments(s, xs)
    ensures s.m2 >= 0.0
    ensures |xs| >= 2 ==> Variance(s) == Variation(xs) / ((|xs| as real) - 1.0) && Variance(s) >= 0.0
  {
    VariationNonNegative(xs);
  }

  /** M2 is the sum of the squared deviations of the values seen from their mean. */
  lemma {:induction false} SquaredDeviations(s: Stats, xs: seq<real>)
    requires Moments(s, xs)
    ensures s.m2 == DevDot(xs, xs, s.m1, s.m1)
  {
    DeviationForm(xs, xs);
  }

  /** With a true square root, the standard deviation is the non-negative root of the sample variance of the values seen. */
  lemma {:induction false} StdDevOfHistory(s: Stats, xs: seq<real>, sqrt: real -> real)
    requires Moments(s, xs) && |xs| >= 2 && SquareRoot(sqrt)
    ensures s.n != 1 && StdDev(s, sqrt) >= 0.0
    ensures StdDev(s, sqrt) * StdDev(s, sqrt) == Variation(xs) / ((|xs| as real) - 1.0)
  {
    VarianceOfHistory(s, xs);
    assert sqrt(Variance(s)) >= 0.0 && sqrt(Variance(s)) * sqrt(Variance(s)) == Variance(s);
  }

  /** Merging accumulators that have seen xs and ys gives one that has seen xs + ys. */
  lemma {:induction false} MergeMoments(a: Stats, b: Stats, xs: seq<real>, ys: seq<real>)
    requires Moments(a, xs) && Moments(b, ys) && a.n + b.n > 0
    ensures Moments(Merge(a, b), xs + ys)
  {
    MergeLowMoments(a.n, b.n, a.m1, a.m2, b.m1, b.m2);
    MomentsConcat(Merge(a, b), xs, ys);
  }

  /** The M2 of a merge is the two M2s plus the pooling term of the difference of the means. */
  lemma {:induction false} MergeLowMoments(na: nat, nb: nat, a1: real, a2: real, b1: real, b2: real)
    requires na + nb > 0
    ensures MergeM2(na, nb, a1, a2, b1, b2) == a2 + b2 + Pooling(na, nb, b1 - a1, b1 - a1)
  {
    var d := b1 - a1;
    assert ((na * nb) as real) == (na as real) * (nb as real);
    assert ((na * nb) as real) * d * d == d * d * (na as real) * (nb as real);
  }

  lemma {:induction false} MomentsConcat(t: Stats, xs: seq<real>, ys: seq<real>)
    requires |xs| + |ys| > 0 && t.n == |xs| + |ys|
    requires t.m1 == MergeMean(|xs|, |ys|, Deviations.Mean(xs), Deviations.Mean(ys))
    requires t.m2 == Variation(xs) + Variation(ys) + Pooling(|xs|, |ys|, Deviations.Mean(ys) - Deviations.Mean(xs), Deviations.Mean(ys) - Deviations.Mean(xs))
    ensures Moments(t, xs + ys)
  {
    MeanConcat(xs, ys);
    CoMomentConcat(xs, xs, ys, ys);
  }

  /**
   `a + b` forgets min and max: merging two accumulators that have each
   seen one positive value yields min = max = 0, a value neither has seen.
   */
  lemma MergeForgetsExtrema(x: real, y: real)
    requires x > 0.0 && y > 0.0
    ensures Moments(Merge(Single(x), Single(y)), [x, y])
    ensures !Extrema(Merge(Single(x), Single(y)), [x, y])
  {
    MergeMoments(Single(x), Single(y), [x], [y]);
    assert [x] + [y] == [x, y];
  }

  // ---------------------------------------------------------------------
  // A push is a merge with a one-value accumulator

  /**
   Pushing x gives the same count and moments M1 to M4 as merging with the
   accumulator that holds only x; only min and max differ, which the merge
   does not keep.
   */
  lemma {:induction false} PushIsMerge(s: Stats, x: real)
    ensures Push(s, x).n == Merge(s, Single(x)).n
    ensures Push(s, x).m1 == Merge(s, Single(x)).m1
    ensures Push(s, x).m2 == Merge(s, Single(x)).m2
    ensures Push(s, x).m3 == Merge(s, Single(x)).m3
    ensures Push(s, x).m4 == Merge(s, Single(x)).m4
  {
    PushMeanIsMerge(s.n, s.m1, x);
    PushM2IsMerge(s.n, s.m1, s.m2, x);
    PushM3IsMerge(s.n, s.m1, s.m2, s.m3, x);
    PushM4IsMerge(s.n, s.m1, s.m2, s.m3, s.m4, x);
  }

  lemma {:induction false} PushMeanIsMerge(n1: nat, m1: real, x: real)
    ensures PushMean(n1, m1, x) == MergeMean(n1, 1, m1, x)
  {
    var n := (n1 + 1) as real;
    var e := (x - m1) / n;
    assert x - m1 == e * n;
    assert (n1 as real) * m1 + 1.0 * x == (m1 + e) * n;
  }

  lemma {:induction false} PushM2IsMerge(n1: nat, m1: real, m2: real, x: real)
    ensures PushM2(n1, m1, m2, x) == MergeM2(n1, 1, m1, m2, x, 0.0)
  {
    var n := (n1 + 1) as real;
    var d := x - m1;
    var e := d / n;
    assert d == e * n;
    assert d * d * (n1 as real) * 1.0 == d * e * (n1 as real) * n;
  }

  lemma {:induction false} PushM3IsMerge(n1: nat, m1: real, m2: real, m3: real, x: real)
    ensures PushM3(n1, m1, m2, m3, x) == MergeM3(n1, 1, m1, m2, m3, x, 0.0, 0.0)
  {
    PushM3Terms(n1, m1, m2, m3, x);
    MergeM3Terms(n1, 1, m1, m2, m3, x, 0.0, 0.0);
  }

  lemma {:induction false} PushM4IsMerge(n1: nat, m1: real, m2: real, m3: real, m4: real, x: real)
    ensures PushM4(n1, m1, m2, m3, m4, x) == MergeM4(n1, 1, m1, m2, m3, m4, x, 0.0, 0.0, 0.0)
  {
    PushM4Terms(n1, m1, m2, m3, m4, x);
    MergeM4Terms(n1, 1, m1, m2, m3, m4, x, 0.0, 0.0, 0.0);
  }

  /** The scaled step (x - M1) / (n1 + 1) both updates are written in below. */
  function Step(n1: nat, m1: real, x: real): (e: real)
  {
    (x - m1) / ((n1 + 1) as real)
  }

  /** The fourth-moment pooling term for one value joining n1, as a polynomial in the step. */
  function QuarticTerm(n1: nat, m1: real, x: real): (t: real)
  {
    QuarticPoly(Step(n1, m1, x), (n1 + 1) as real, n1 as real, (n1 * n1 - n1 + 1) as real)
  }

  function SquarePoly(e: real, m2: real): (t: real)
  {
    6.0 * (e * e) * m2
  }

  function QuarticPoly(e: real, n: real, a: real, p: real): (t: real)
  {
    e * e * e * e * n * (a * p)
  }

  /** The third-moment pooling term for one value joining n1: d e^2 n1 (n1 - 1) with d = x - M1. */
  function CubicTerm(n1: nat, m1: real, x: real): (t: real)
  {
    CubicPoly(x - m1, Step(n1, m1, x), n1 as real, (n1 - 1) as real)
  }

  function CubicPoly(d: real, e: real, a: real, k: real): (t: real)
  {
    d * e * a * e * k
  }

  lemma {:induction false} PushM3Terms(n1: nat, m1: real, m2: real, m3: real, x: real)
    ensures PushM3(n1, m1, m2, m3, x) == m3 + CubicTerm(n1, m1, x) - 3.0 * Step(n1, m1, x) * m2
  {
    assert ((n1 + 1) - 2) as real == (n1 - 1) as real;
  }

  lemma {:induction false} MergeM3Terms(n1: nat, nb: nat, m1: real, m2: real, m3: real, x: real, b2: real, b3: real)
    requires nb == 1 && b2 == 0.0 && b3 == 0.0
    ensures MergeM3(n1, nb, m1, m2, m3, x, b2, b3) == m3 + CubicTerm(n1, m1, x) - 3.0 * Step(n1, m1, x) * m2
  {
    M3Form(n1, nb, m1, m2, m3, x, b2, b3);
    CubicMatches(n1, nb, m1, x);
    StepScales(n1, m1, x);
    LinearScaled(3.0, x - m1, Step(n1, m1, x), (n1 + 1) as real, (n1 + nb) as real, n1 as real, nb as real, b2, m2);
  }

  lemma {:induction false} CubicMatches(n1: nat, nb: nat, m1: real, x: real)
    requires nb == 1
    ensures (x - m1) * ((x - m1) * (x - m1)) * (n1 as real) * (nb as real) * ((n1 - nb) as real) / (((n1 + nb) * (n1 + nb)) as real)
         == CubicTerm(n1, m1, x)
  {
    StepScales(n1, m1, x);
    SquareOf(n1 + nb, (n1 + 1) as real);
    CubicScaled(x - m1, Step(n1, m1, x), (n1 + 1) as real, n1 as real, nb as real,
                (n1 - nb) as real, (n1 - 1) as real, ((n1 + nb) * (n1 + nb)) as real);
  }

  lemma {:induction false} PushM4Terms(n1: nat, m1: real, m2: real, m3: real, m4: real, x: real)
    ensures PushM4(n1, m1, m2, m3, m4, x)
         == m4 + QuarticTerm(n1, m1, x) + SquarePoly(Step(n1, m1, x), m2) - 4.0 * Step(n1, m1, x) * m3
  {
    var n := (n1 + 1) as real;
    var d := x - m1;
    var e := Step(n1, m1, x);
    assert d == e * n;
    assert ((n1 + 1) * (n1 + 1) - 3 * (n1 + 1) + 3) as real == (n1 * n1 - n1 + 1) as real;
  }

  lemma {:induction false} MergeM4Terms(n1: nat, nb: nat, m1: real, m2: real, m3: real, m4: real, x: real, b2: real, b3: real, b4: real)
    requires nb == 1 && b2 == 0.0 && b3 == 0.0 && b4 == 0.0
    ensures MergeM4(n1, nb, m1, m2, m3, m4, x, b2, b3, b4)
         == m4 + QuarticTerm(n1, m1, x) + SquarePoly(Step(n1, m1, x), m2) - 4.0 * Step(n1, m1, x) * m3
  {
    MergeM4Unfolds(n1, nb, m1, m2, m3, m4, x, b2, b3, b4);
    QuarticMatches(n1, nb, m1, x);
    SquareMatches(n1, nb, m1, m2, b2, x);
    LinearMatches(n1, nb, m1, m3, b3, x);
  }

  /** The merged M4 with the group sizes and moments left symbolic. */
  lemma MergeM4Unfolds(na: nat, nb: nat, a1: real, a2: real, a3: real, a4: real,
                       b1: real, b2: real, b3: real, b4: real)
    requires na + nb > 0
    ensures MergeM4(na, nb, a1, a2, a3, a4, b1, b2, b3, b4)
         == a4 + b4 + (b1 - a1) * (b1 - a1) * ((b1 - a1) * (b1 - a1)) * (na as real) * (nb as real) * ((na * na - na * nb + nb * nb) as real)
                      / (((na + nb) * (na + nb) * (na + nb)) as real)
            + 6.0 * ((b1 - a1) * (b1 - a1)) * ((na as real) * (na as real) * b2 + (nb as real) * (nb as real) * a2) / (((na + nb) * (na + nb)) as real)
            + 4.0 * (b1 - a1) * ((na as real) * b3 - (nb as real) * a3) / ((na + nb) as real)
  {
  }

  // The three pooling terms of MergeM4Unfolds for a group of one value
  // (nb = 1, zero central moments) written in the push's scaled step.

  lemma {:induction false} QuarticMatches(n1: nat, nb: nat, m1: real, x: real)
    requires nb == 1
    ensures (x - m1) * (x - m1) * ((x - m1) * (x - m1)) * (n1 as real) * (nb as real) * ((n1 * n1 - n1 * nb + nb * nb) as real)
            / (((n1 + nb) * (n1 + nb) * (n1 + nb)) as real)
         == QuarticTerm(n1, m1, x)
  {
    StepScales(n1, m1, x);
    CubeOf(n1 + nb, (n1 + 1) as real);
    OneJoins(n1, nb);
    QuarticScaled(x - m1, Step(n1, m1, x), (n1 + 1) as real, n1 as real, nb as real,
                  (n1 * n1 - n1 * nb + nb * nb) as real, (n1 * n1 - n1 + 1) as real, ((n1 + nb) * (n1 + nb) * (n1 + nb)) as real);
  }

  lemma {:induction false} SquareMatches(n1: nat, nb: nat, m1: real, m2: real, b2: real, x: real)
    requires nb == 1 && b2 == 0.0
    ensures 6.0 * ((x - m1) * (x - m1)) * ((n1 as real) * (n1 as real) * b2 + (nb as real) * (nb as real) * m2) / (((n1 + nb) * (n1 + nb)) as real)
         == SquarePoly(Step(n1, m1, x), m2)
  {
    StepScales(n1, m1, x);
    SquareOf(n1 + nb, (n1 + 1) as real);
    SquareScaled(x - m1, Step(n1, m1, x), (n1 + 1) as real, n1 as real, nb as real, b2, m2, ((n1 + nb) * (n1 + nb)) as real);
  }

  lemma {:induction false} LinearMatches(n1: nat, nb: nat, m1: real, m3: real, b3: real, x: real)
    requires nb == 1 && b3 == 0.0
    ensures 4.0 * (x - m1) * ((n1 as real) * b3 - (nb as real) * m3) / ((n1 + nb) as real) == -(4.0 * Step(n1, m1, x) * m3)
  {
    StepScales(n1, m1, x);
    LinearScaled(4.0, x - m1, Step(n1, m1, x), (n1 + 1) as real, (n1 + nb) as real, n1 as real, nb as real, b3, m3);
  }

  lemma StepScales(n1: nat, m1: real, x: real)
    ensures Step(n1, m1, x) * ((n1 + 1) as real) == x - m1
  {
  }

  lemma {:induction false} OneJoins(n1: nat, nb: nat)
    requires nb == 1
    ensures (n1 * n1 - n1 * nb + nb * nb) as real == (n1 * n1 - n1 + 1) as real
  {
  }

  lemma {:induction false} SquareOf(k: nat, n: real)
    requires k > 0 && n == k as real
    ensures (k * k) as real == n * n && n * n > 0.0
  {
    SquareCast(k);
    PositiveProduct(n, n, n * n);
  }

  lemma {:induction false} CubeOf(k: nat, n: real)
    requires k > 0 && n == k as real
    ensures (k * k * k) as real == n * n * n && n * n * n > 0.0
  {
    CubeCast(k);
    PositiveProduct(n, n, n * n);
    PositiveProduct(n * n, n, n * n * n);
  }

  // The three terms for a step e = d / n, as identities over the reals.

  lemma QuarticScaled(d: real, e: real, n: real, a: real, b: real, p: real, p': real, c3: real)
    requires n > 0.0 && d == e * n && c3 == n * n * n && c3 > 0.0 && b == 1.0 && p == p'
    ensures d * d * (d * d) * a * b * p / c3 == QuarticPoly(e, n, a, p')
  {
    var q := e * e * e * e * n * (a * p);
    assert d * d * (d * d) * a * b * p == q * c3;
    assert q * c3 / c3 == q;
  }

  lemma CubicScaled(d: real, e: real, n: real, a: real, b: real, k: real, k': real, c2: real)
    requires n > 0.0 && d == e * n && c2 == n * n && c2 > 0.0 && b == 1.0 && k == k'
    ensures d * (d * d) * a * b * k / c2 == CubicPoly(d, e, a, k')
  {
    var q := d * e * a * e * k;
    assert d * (d * d) * a * b * k == q * c2;
    assert q * c2 / c2 == q;
  }

  lemma SquareScaled(d: real, e: real, n: real, a: real, b: real, b2: real, m2: real, c2: real)
    requires n > 0.0 && d == e * n && c2 == n * n && c2 > 0.0 && b == 1.0 && b2 == 0.0
    ensures 6.0 * (d * d) * (a * a * b2 + b * b * m2) / c2 == SquarePoly(e, m2)
  {
    assert a * a * b2 + b * b * m2 == m2;
    var q := 6.0 * (e * e) * m2;
    assert 6.0 * (d * d) * m2 == q * c2;
    assert q * c2 / c2 == q;
  }

  lemma LinearScaled(c: real, d: real, e: real, n: real, n': real, a: real, b: real, b3: real, m3: real)
    requires n > 0.0 && n' == n && d == e * n && b == 1.0 && b3 == 0.0
    ensures c * d * (a * b3 - b * m3) / n' == -(c * e * m3)
  {
    assert a * b3 - b * m3 == -m3;
    assert c * d * -m3 == -(c * e * m3) * n;
  }

  lemma {:induction false} SquareCast(k: nat)
    ensures (k * k) as real == (k as real) * (k as real)
  {
  }

  lemma {:induction false} CubeCast(k: nat)
    ensures (k * k * k) as real == (k as real) * (k as real) * (k as real)
  {
  }
}
