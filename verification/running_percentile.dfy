/**
 The P-square estimator of Jain and Chlamtac ("The P2 algorithm for
 dynamic calculation of quantiles and histograms without storing
 observations", Communications of the ACM 28(10), 1985).  Each tracked
 percentile p keeps five markers: heights q, actual positions n, desired
 positions nPrime and the amounts dn the desired positions advance by per
 value.  The first five values are stored as they come; the sixth push
 sorts them, and from then on every value selects the cell it falls in,
 shifts the positions above it, and each interior marker whose actual
 position lags a whole step behind its desired one moves one position,
 its height following a parabola through its neighbours or, when that
 leaves the neighbours' range, a straight line.

 All percentiles see the same values and share the count; their marker
 sets never interact.
 */
module RunningPercentile {
  import opened Outcomes
  import Deviations

  /** The five markers of one percentile. */
  datatype Markers = Markers(q: seq<real>, n: seq<int>, nPrime: seq<real>, dn: seq<real>)

  /** The tracked percentiles, one marker set each, and the number of values pushed. */
  datatype Estimator = Estimator(percentiles: seq<real>, markers: seq<Markers>, count: nat)

  // ---------------------------------------------------------------------
  // Orderings

  predicate Sorted(s: seq<real>)
  {
    forall i, j :: 0 <= i < j < |s| ==> s[i] <= s[j]
  }

  /** Five heights in non-decreasing order. */
  predicate Ordered(q: seq<real>)
  {
    |q| == 5 && q[0] <= q[1] <= q[2] <= q[3] <= q[4]
  }

  /** Five positions in strictly increasing order. */
  predicate Increasing(n: seq<int>)
  {
    |n| == 5 && n[0] < n[1] < n[2] < n[3] < n[4]
  }

  predicate Shaped(m: Markers)
  {
    |m.q| == 5 && |m.n| == 5 && |m.nPrime| == 5 && |m.dn| == 5
  }

  lemma OrderedIsSorted(q: seq<real>)
    requires |q| == 5
    ensures Ordered(q) <==> Sorted(q)
  {
    if Ordered(q) {
      forall i, j | 0 <= i < j < 5
        ensures q[i] <= q[j]
      {
        if j == i + 1 {
        } else if j == i + 2 {
          assert q[i] <= q[i + 1];
        } else if j == i + 3 {
          assert q[i] <= q[i + 1] <= q[i + 2];
        } else {
          assert q[0] <= q[1] <= q[2] <= q[3];
        }
      }
    }
    if Sorted(q) {
      assert q[0] <= q[1] && q[1] <= q[2] && q[2] <= q[3] && q[3] <= q[4];
    }
  }

  // ---------------------------------------------------------------------
  // Sorting the first five values

  /** x placed into the sorted s. */
  function Insert(x: real, s: seq<real>): (r: seq<real>)
    requires Sorted(s)
    ensures |r| == |s| + 1 && Sorted(r) && multiset(r) == multiset(s) + multiset{x}
    decreases |s|
  {
    if |s| == 0 || x <= s[0] then
      ConsSorted(x, s);
      [x] + s
    else
      SortedTail(s);
      var t := Insert(x, s[1..]);
      FirstIsLeast(s, x, t);
      ConsSorted(s[0], t);
      assert s == [s[0]] + s[1..];
      [s[0]] + t
  }

  /** A value no larger than the first of a sorted sequence can go in front of it. */
  lemma ConsSorted(a: real, t: seq<real>)
    requires Sorted(t) && (|t| > 0 ==> a <= t[0])
    ensures Sorted([a] + t)
  {
  }

  /** A sorted permutation of s. */
  function Sort(s: seq<real>): (r: seq<real>)
    ensures |r| == |s| && Sorted(r) && multiset(r) == multiset(s)
    decreases |s|
  {
    if |s| == 0 then []
    else
      assert s == [s[0]] + s[1..];
      Insert(s[0], Sort(s[1..]))
  }

  lemma SortedTail(s: seq<real>)
    requires Sorted(s) && |s| > 0
    ensures Sorted(s[1..]) && multiset(s[1..]) == multiset(s) - multiset{s[0]}
  {
    assert s == [s[0]] + s[1..];
  }

  /** Every value of a sorted sequence is at least its first. */
  lemma SortedFirst(s: seq<real>, v: real)
    requires Sorted(s) && v in multiset(s)
    ensures s[0] <= v
  {
    var j :| 0 <= j < |s| && s[j] == v;
  }

  /** Inserting a value above the first of s among the rest keeps the first below everything. */
  lemma FirstIsLeast(s: seq<real>, x: real, t: seq<real>)
    requires Sorted(s) && |s| > 0 && s[0] < x && multiset(t) == multiset(s[1..]) + multiset{x}
    ensures forall j :: 0 <= j < |t| ==> s[0] <= t[j]
  {
    forall j | 0 <= j < |t|
      ensures s[0] <= t[j]
    {
      assert t[j] in multiset(t);
      if t[j] != x {
        SortedTail(s);
        assert t[j] in multiset(s);
        SortedFirst(s, t[j]);
      }
    }
  }

  /** There is only one sorted permutation, so any sorting routine gives what `Sort` gives. */
  lemma {:induction false} SortedUnique(a: seq<real>, b: seq<real>)
    requires Sorted(a) && Sorted(b) && multiset(a) == multiset(b)
    ensures a == b
    decreases |a|
  {
    assert |a| == |multiset(a)| == |multiset(b)| == |b|;
    if |a| > 0 {
      SameFirst(a, b);
      SortedUnique(a[1..], b[1..]);
      assert a == [a[0]] + a[1..] && b == [b[0]] + b[1..];
    }
  }

  /** Two sorted permutations of each other start alike, and their tails are sorted permutations of each other. */
  lemma SameFirst(a: seq<real>, b: seq<real>)
    requires Sorted(a) && Sorted(b) && multiset(a) == multiset(b) && |a| > 0 && |b| > 0
    ensures a[0] == b[0] && Sorted(a[1..]) && Sorted(b[1..]) && multiset(a[1..]) == multiset(b[1..])
  {
    assert a[0] in multiset(b) && b[0] in multiset(a);
    SortedFirst(a, b[0]);
    SortedFirst(b, a[0]);
    SortedTail(a);
    SortedTail(b);
  }

  // ---------------------------------------------------------------------
  // Construction

  /** Percentiles are fractions of one: 0.5 is the median. */
  predicate InRange(p: real)
  {
    0.0 <= p <= 1.0
  }

  /** The desired positions before any value beyond the fifth: 1, 1 + 2p, 1 + 4p, 3 + 2p, 5. */
  function Desired(p: real): (np: seq<real>)
  {
    [1.0, 1.0 + 2.0 * p, 1.0 + 4.0 * p, 3.0 + 2.0 * p, 5.0]
  }

  /** How far each desired position advances per value: 0, p/2, p, (1 + p)/2, 1. */
  function Increments(p: real): (dn: seq<real>)
  {
    [0.0, p / 2.0, p, (1.0 + p) / 2.0, 1.0]
  }

  /** The markers of a percentile that has seen nothing. */
  function Initial(p: real): (m: Markers)
  {
    Markers([0.0, 0.0, 0.0, 0.0, 0.0], [1, 2, 3, 4, 5], Desired(p), Increments(p))
  }

  function Fresh(ps: seq<real>): (e: Estimator)
  {
    Estimator(ps, seq(|ps|, i requires 0 <= i < |ps| => Initial(ps[i])), 0)
  }

  /** The constructor: any percentile outside [0, 1] is refused; both ends are accepted. */
  function New(ps: seq<real>): (r: Result<Estimator>)
    ensures (exists i :: 0 <= i < |ps| && !InRange(ps[i])) <==> r.Failure?
    ensures r.Success? ==> r.value.percentiles == ps && r.value.count == 0 && Valid(r.value) && Tracks(r.value, [])
  {
    if exists i :: 0 <= i < |ps| && !InRange(ps[i]) then Failure("Percentile is out of 1. 50th percentile -> .5")
    else Success(Fresh(ps))
  }

  /** The constructor for a single percentile. */
  function NewSingle(p: real): (r: Result<Estimator>)
    ensures !InRange(p) <==> r.Failure?
    ensures r.Success? ==> r.value.percentiles == [p] && r.value.count == 0 && Valid(r.value)
  {
    assert [p][0] == p;
    New([p])
  }

  /** `clear`: the same percentiles, every marker set back to its initial state, nothing seen. */
  function Clear(e: Estimator): (r: Estimator)
    ensures r.percentiles == e.percentiles && r.count == 0
    ensures Valid(e) ==> Valid(r) && Tracks(r, []) && New(e.percentiles) == Success(r)
  {
    Fresh(e.percentiles)
  }

  // ---------------------------------------------------------------------
  // One value

  /**
   The cell the value falls in, k in 1..4, with cell k between heights
   k - 1 and k.  A value below q[0] or above q[4] is the first or last
   cell.  The chain of half-open tests matches nothing for x == q[4],
   which keeps the initial k = 1.
   */
  function SelectCell(q: seq<real>, x: real): (k: int)
    requires |q| == 5
    ensures 1 <= k <= 4
  {
    if x < q[0] then 1
    else if q[4] < x then 4
    else if q[0] <= x && x < q[1] then 1
    else if q[1] <= x && x < q[2] then 2
    else if q[2] <= x && x < q[3] then 3
    else if q[3] <= x && x < q[4] then 4
    else 1
  }

  /** A value below the lowest height or above the highest becomes that height. */
  function ResetEnds(q: seq<real>, x: real): (r: seq<real>)
    requires |q| == 5
    ensures |r| == 5
  {
    if x < q[0] then q[0 := x]
    else if q[4] < x then q[4 := x]
    else q
  }

  /** How far marker i's actual position lags its desired one. */
  function Offset(m: Markers, i: int): (o: real)
    requires Shaped(m) && 1 <= i <= 3
  {
    m.nPrime[i] - (m.n[i] as real)
  }

  /** Marker i moves when it is a whole position off and there is room to move one position that way. */
  predicate Moves(m: Markers, i: int)
    requires Shaped(m) && 1 <= i <= 3
  {
    (Offset(m, i) >= 1.0 && ((m.n[i + 1] - m.n[i]) as real) > 1.0) ||
    (Offset(m, i) <= -1.0 && ((m.n[i - 1] - m.n[i]) as real) < -1.0)
  }

  function Abs(d: real): (a: real)
    ensures a >= 0.0 && (a == d || a == -d)
  {
    if d < 0.0 then -d else d
  }

  /** The direction of a move: d / |d| truncated to an integer. */
  function Sign(d: real): (s: int)
    ensures s == 1 || s == -1
  {
    if d > 0.0 then 1 else -1
  }

  /** For the offsets that move a marker, the truncated ratio d / |d| is exactly +1 or -1. */
  lemma SignIsRatio(d: real)
    requires d != 0.0
    ensures (Sign(d) as real) == d / Abs(d)
  {
    assert d == (Sign(d) as real) * Abs(d);
    Deviations.QuotientOf(d, Abs(d), Sign(d) as real);
  }

  /** The piecewise-parabolic prediction of marker i's height after a move of s positions. */
  function Parabolic(m: Markers, i: int, s: real): (h: real)
    requires Shaped(m) && Increasing(m.n) && 1 <= i <= 3
  {
    var dp := (m.n[i + 1] - m.n[i]) as real;
    var dm := (m.n[i - 1] - m.n[i]) as real;
    var hp := (m.q[i + 1] - m.q[i]) / dp;
    var hm := (m.q[i - 1] - m.q[i]) / dm;
    m.q[i] + s / (dp - dm) * ((s - dm) * hp + (dp - s) * hm)
  }

  /**
   Marker i's new height: the parabolic prediction when it lies strictly
   between the neighbours' heights, otherwise a linear step towards the
   neighbour on the side of the move.
   */
  function Target(m: Markers, i: int): (h: real)
    requires Shaped(m) && Increasing(m.n) && 1 <= i <= 3
  {
    var h := Parabolic(m, i, Sign(Offset(m, i)) as real);
    if m.q[i - 1] < h && h < m.q[i + 1] then h
    else if Offset(m, i) > 0.0 then m.q[i] + (m.q[i + 1] - m.q[i]) / ((m.n[i + 1] - m.n[i]) as real)
    else m.q[i] - (m.q[i - 1] - m.q[i]) / ((m.n[i - 1] - m.n[i]) as real)
  }

  /**
   The adjustment of interior marker i.  Its position moves by exactly one:
   up when it lags at least one position behind its desired position and
   the next marker is more than one position away, down in the mirror case,
   and otherwise marker i stays where it is.  No other marker changes.
   */
  function Adjust(m: Markers, i: int): (r: Markers)
    requires Shaped(m) && Increasing(m.n) && 1 <= i <= 3
    ensures Shaped(r) && Increasing(r.n) && r.nPrime == m.nPrime && r.dn == m.dn
    ensures forall j :: 0 <= j < 5 && j != i ==> r.q[j] == m.q[j] && r.n[j] == m.n[j]
    ensures r.n[i] == m.n[i] + 1 <==> Offset(m, i) >= 1.0 && m.n[i + 1] - m.n[i] > 1
    ensures r.n[i] == m.n[i] - 1 <==> Offset(m, i) <= -1.0 && m.n[i] - m.n[i - 1] > 1
    ensures r.n[i] == m.n[i] || r.n[i] == m.n[i] + 1 || r.n[i] == m.n[i] - 1
    ensures r.n[i] == m.n[i] ==> r == m
  {
    if Moves(m, i) then
      m.(q := m.q[i := Target(m, i)], n := m.n[i := m.n[i] + Sign(Offset(m, i))])
    else m
  }

  /** Every push past the fifth for one marker set: cell selection, positions, desired positions, then markers 1, 2, 3 in turn. */
  function Observe(m: Markers, x: real): (r: Markers)
    requires Shaped(m) && Increasing(m.n)
    ensures Shaped(r) && Increasing(r.n) && r.dn == m.dn
  {
    var k := SelectCell(m.q, x);
    var shifted := Markers(ResetEnds(m.q, x),
                           seq(5, i requires 0 <= i < 5 => if i >= k then m.n[i] + 1 else m.n[i]),
                           seq(5, i requires 0 <= i < 5 => m.nPrime[i] + m.dn[i]),
                           m.dn);
    Adjust(Adjust(Adjust(shifted, 1), 2), 3)
  }

  /**
   One push into one marker set, `count` values having been pushed before:
   the first five values are stored in order of arrival; the sixth push
   sorts them before observing.
   */
  function PushMarkers(m: Markers, count: nat, x: real): (r: Markers)
    requires Shaped(m) && Increasing(m.n)
    ensures Shaped(r) && Increasing(r.n) && r.dn == m.dn
  {
    if count < 5 then m.(q := m.q[count := x])
    else if count == 5 then Observe(m.(q := Sort(m.q)), x)
    else Observe(m, x)
  }

  /** `push(x)`: every percentile's markers take x; the count goes up by one. */
  function Push(e: Estimator, x: real): (r: Estimator)
    requires Valid(e)
    ensures r.percentiles == e.percentiles && |r.markers| == |e.markers| && r.count == e.count + 1
  {
    Estimator(e.percentiles,
              seq(|e.markers|, i requires 0 <= i < |e.markers| => PushMarkers(e.markers[i], e.count, x)),
              e.count + 1)
  }

  /** The values pushed one after another, first to last. */
  function PushAll(e: Estimator, xs: seq<real>): (r: Estimator)
    requires Valid(e)
    ensures Valid(r) && r.percentiles == e.percentiles && |r.markers| == |e.markers| && r.count == e.count + |xs|
    decreases |xs|
  {
    if |xs| == 0 then e
    else
      var prev := PushAll(e, xs[..|xs| - 1]);
      PushValid(prev, xs[|xs| - 1]);
      Push(prev, xs[|xs| - 1])
  }

  /** `push(double[])`: each value in turn. */
  method PushArray(e: Estimator, xs: seq<real>) returns (r: Estimator)
    requires Valid(e)
    ensures r == PushAll(e, xs)
  {
    r := e;
    var i := 0;
    while i < |xs|
      invariant 0 <= i <= |xs|
      invariant r == PushAll(e, xs[..i])
    {
      assert xs[..i + 1][..i] == xs[..i];
      r := Push(r, xs[i]);
      i := i + 1;
    }
    assert xs[..i] == xs;
  }

  /**
   `percentileValues`: the middle marker's height of each percentile.
   Once the markers are running, each estimate lies between its
   percentile's lowest and highest marker heights.
   */
  function PercentileValues(e: Estimator): (vals: seq<real>)
    requires Valid(e)
    ensures |vals| == |e.percentiles|
    ensures e.count > 5 ==> forall i :: 0 <= i < |vals| ==> e.markers[i].q[0] <= vals[i] <= e.markers[i].q[4]
  {
    seq(|e.markers|, i requires 0 <= i < |e.markers| => e.markers[i].q[2])
  }

  // ---------------------------------------------------------------------
  // The invariant

  /** The number of pushes that have gone past the first five. */
  function Steps(count: nat): (k: nat)
  {
    if count <= 5 then 0 else count - 5
  }

  /**
   What holds of the markers of percentile p after `count` pushes: the
   positions are strictly increasing from 1, the last one is the count
   (and 5 before there are five values), the desired positions have
   advanced by dn once per push past the fifth, and once the values have
   been sorted the heights are in order.
   */
  predicate MarkersValid(m: Markers, p: real, count: nat)
  {
    Shaped(m) && m.dn == Increments(p) && Increasing(m.n) &&
    m.n[0] == 1 && m.n[4] == 5 + Steps(count) &&
    (count <= 5 ==> m.n == [1, 2, 3, 4, 5]) &&
    (count > 5 ==> Ordered(m.q)) &&
    forall i :: 0 <= i < 5 ==> m.nPrime[i] == Desired(p)[i] + Accrued(Steps(count), m.dn[i])
  }

  predicate Valid(e: Estimator)
  {
    |e.markers| == |e.percentiles| &&
    forall i :: 0 <= i < |e.markers| ==> InRange(e.percentiles[i]) && MarkersValid(e.markers[i], e.percentiles[i], e.count)
  }

  lemma InitialValid(p: real)
    ensures MarkersValid(Initial(p), p, 0)
  {
  }

  /** The selected cell lies above the lowest height, so the lowest position never shifts; the highest always does. */
  lemma {:induction false} ShiftFacts(m: Markers, x: real)
    requires Shaped(m) && Increasing(m.n)
    ensures var k := SelectCell(m.q, x);
            var n := seq(5, i requires 0 <= i < 5 => if i >= k then m.n[i] + 1 else m.n[i]);
            Increasing(n) && n[0] == m.n[0] && n[4] == m.n[4] + 1
  {
  }

  /** Resetting an end keeps the heights in order and puts x within the lowest and highest. */
  lemma ResetEndsOrdered(q: seq<real>, x: real)
    requires Ordered(q)
    ensures Ordered(ResetEnds(q, x))
    ensures ResetEnds(q, x)[0] <= x <= ResetEnds(q, x)[4]
    ensures ResetEnds(q, x)[0] == (if x < q[0] then x else q[0])
    ensures ResetEnds(q, x)[4] == (if q[4] < x then x else q[4])
  {
  }

  /** A linear step up by a fraction of the gap stays within the gap. */
  lemma StepUp(a: real, b: real, g: real, h: real)
    requires a <= b && g >= 1.0 && h == (b - a) / g
    ensures a <= a + h <= b
  {
    assert h * g == b - a;
  }

  /** A linear step down by a fraction of the gap stays within the gap. */
  lemma StepDown(a: real, b: real, g: real, h: real)
    requires a <= b && g <= -1.0 && h == (a - b) / g
    ensures a <= b - h <= b
  {
    StepUp(a, b, -g, h);
  }

  /** Adjusting a marker keeps the heights in order: the new height lies between the neighbours'. */
  lemma {:induction false} AdjustOrdered(m: Markers, i: int)
    requires Shaped(m) && Increasing(m.n) && Ordered(m.q) && 1 <= i <= 3
    ensures Ordered(Adjust(m, i).q)
  {
    if Moves(m, i) {
      var t := Target(m, i);
      var h := Parabolic(m, i, Sign(Offset(m, i)) as real);
      if !(m.q[i - 1] < h && h < m.q[i + 1]) {
        if Offset(m, i) > 0.0 {
          StepUp(m.q[i], m.q[i + 1], (m.n[i + 1] - m.n[i]) as real, (m.q[i + 1] - m.q[i]) / ((m.n[i + 1] - m.n[i]) as real));
        } else {
          StepDown(m.q[i - 1], m.q[i], (m.n[i - 1] - m.n[i]) as real, (m.q[i - 1] - m.q[i]) / ((m.n[i - 1] - m.n[i]) as real));
        }
      }
      assert m.q[i - 1] <= t <= m.q[i + 1];
    }
  }

  /** Three adjustments leave the end markers alone and keep the heights in order. */
  lemma {:induction false} AdjustAll(m: Markers)
    requires Shaped(m) && Increasing(m.n)
    ensures var r := Adjust(Adjust(Adjust(m, 1), 2), 3);
            r.q[0] == m.q[0] && r.q[4] == m.q[4] && r.n[0] == m.n[0] && r.n[4] == m.n[4] &&
            r.nPrime == m.nPrime && (Ordered(m.q) ==> Ordered(r.q))
  {
    var m1 := Adjust(m, 1);
    var m2 := Adjust(m1, 2);
    if Ordered(m.q) {
      AdjustOrdered(m, 1);
      AdjustOrdered(m1, 2);
      AdjustOrdered(m2, 3);
    }
  }

  /** What a push past the fifth does to the ends and the desired positions; ordered heights stay ordered. */
  lemma {:induction false} ObserveFacts(m: Markers, x: real)
    requires Shaped(m) && Increasing(m.n)
    ensures var r := Observe(m, x);
            r.n[0] == m.n[0] && r.n[4] == m.n[4] + 1 &&
            (forall i :: 0 <= i < 5 ==> r.nPrime[i] == m.nPrime[i] + m.dn[i]) &&
            r.q[0] == ResetEnds(m.q, x)[0] && r.q[4] == ResetEnds(m.q, x)[4] &&
            (Ordered(m.q) ==> Ordered(r.q))
  {
    var k := SelectCell(m.q, x);
    var shifted := Markers(ResetEnds(m.q, x),
                           seq(5, i requires 0 <= i < 5 => if i >= k then m.n[i] + 1 else m.n[i]),
                           seq(5, i requires 0 <= i < 5 => m.nPrime[i] + m.dn[i]),
                           m.dn);
    ShiftFacts(m, x);
    if Ordered(m.q) {
      ResetEndsOrdered(m.q, x);
    }
    AdjustAll(shifted);
  }

  /** One more push past the fifth advances each desired position by its increment. */
  lemma DesiredStep(a: real, s: nat, s': nat, dn: real, dn': real, v: real, v': real)
    requires s' == s + 1 && dn' == dn && v == a + Accrued(s, dn) && v' == v + dn
    ensures v' == a + Accrued(s', dn')
  {
  }

  /** A push keeps each marker set's invariant. */
  lemma {:induction false} PushMarkersValid(m: Markers, p: real, count: nat, x: real)
    requires MarkersValid(m, p, count)
    ensures MarkersValid(PushMarkers(m, count, x), p, count + 1)
  {
    if count == 5 {
      OrderedIsSorted(Sort(m.q));
      ObserveValid(m.(q := Sort(m.q)), p, count, x);
    } else if count > 5 {
      ObserveValid(m, p, count, x);
    }
  }

  /** From the fifth value on, observing keeps the invariant as long as the heights are in order. */
  lemma {:induction false} ObserveValid(m: Markers, p: real, count: nat, x: real)
    requires count >= 5 && Shaped(m) && Increasing(m.n) && Ordered(m.q) && m.dn == Increments(p)
    requires m.n[0] == 1 && m.n[4] == 5 + Steps(count)
    requires forall i :: 0 <= i < 5 ==> m.nPrime[i] == Desired(p)[i] + Accrued(Steps(count), m.dn[i])
    ensures MarkersValid(Observe(m, x), p, count + 1)
  {
    ObserveFacts(m, x);
    var r := Observe(m, x);
    DesiredAdvance(m, r, p, count);
    assert r.n[0] == 1 && r.n[4] == 5 + Steps(count + 1);
    assert Ordered(r.q);
  }

  /** Advancing every desired position by its increment keeps them at their closed form, one step further. */
  lemma {:induction false} DesiredAdvance(m: Markers, r: Markers, p: real, count: nat)
    requires count >= 5 && Shaped(m) && Shaped(r) && r.dn == m.dn
    requires forall i :: 0 <= i < 5 ==> r.nPrime[i] == m.nPrime[i] + m.dn[i]
    requires forall i :: 0 <= i < 5 ==> m.nPrime[i] == Desired(p)[i] + Accrued(Steps(count), m.dn[i])
    ensures forall i :: 0 <= i < 5 ==> r.nPrime[i] == Desired(p)[i] + Accrued(Steps(count + 1), r.dn[i])
  {
    forall i | 0 <= i < 5
      ensures r.nPrime[i] == Desired(p)[i] + Accrued(Steps(count + 1), r.dn[i])
    {
      DesiredStep(Desired(p)[i], Steps(count), Steps(count + 1), m.dn[i], r.dn[i], m.nPrime[i], r.nPrime[i]);
    }
  }

  /** A push keeps the invariant of every percentile. */
  lemma {:induction false} PushValid(e: Estimator, x: real)
    requires Valid(e)
    ensures Valid(Push(e, x))
  {
    forall i | 0 <= i < |e.markers|
      ensures InRange(Push(e, x).percentiles[i]) && MarkersValid(Push(e, x).markers[i], Push(e, x).percentiles[i], Push(e, x).count)
    {
      PushOneValid(e, x, i);
    }
  }

  lemma {:induction false} PushOneValid(e: Estimator, x: real, i: int)
    requires Valid(e) && 0 <= i < |e.markers|
    ensures InRange(Push(e, x).percentiles[i]) && MarkersValid(Push(e, x).markers[i], Push(e, x).percentiles[i], Push(e, x).count)
  {
    assert InRange(e.percentiles[i]) && MarkersValid(e.markers[i], e.percentiles[i], e.count);
    PushMarkersValid(e.markers[i], e.percentiles[i], e.count, x);
  }

  /**
   For a percentile in [0, 1] the desired positions stay in non-decreasing
   order; the first stays 1 and, from the fifth value on, the last is the
   count.
   */
  lemma {:induction false} DesiredOrdered(m: Markers, p: real, count: nat)
    requires MarkersValid(m, p, count) && InRange(p)
    ensures m.nPrime[0] <= m.nPrime[1] <= m.nPrime[2] <= m.nPrime[3] <= m.nPrime[4]
    ensures m.nPrime[0] == 1.0
    ensures count >= 5 ==> m.nPrime[4] == count as real
  {
    var s := Steps(count);
    AccruedConstant(s, 0.0);
    AccruedConstant(s, 1.0);
    AccruedGrows(s, 0.0, p / 2.0);
    AccruedGrows(s, p / 2.0, p);
    AccruedGrows(s, p, (1.0 + p) / 2.0);
    AccruedGrows(s, (1.0 + p) / 2.0, 1.0);
  }

  /** d added s times: the advance of a desired position over s pushes past the fifth. */
  function Accrued(s: nat, d: real): (t: real)
  {
    if s == 0 then 0.0 else Accrued(s - 1, d) + d
  }

  /** Adding d s times is s times d. */
  lemma {:induction false} AccruedConstant(s: nat, d: real)
    ensures Accrued(s, d) == (s as real) * d
  {
    if s > 0 {
      AccruedConstant(s - 1, d);
      assert ((s - 1) as real) * d + d == (s as real) * d;
    }
  }

  /** A larger increment accrues at least as much. */
  lemma {:induction false} AccruedGrows(s: nat, a: real, b: real)
    requires a <= b
    ensures Accrued(s, a) <= Accrued(s, b)
  {
    if s > 0 {
      AccruedGrows(s - 1, a, b);
    }
  }

  // ---------------------------------------------------------------------
  // Relations to the values pushed

  /** v is one of xs and no value of xs is below it. */
  predicate IsMin(v: real, xs: seq<real>)
  {
    v in xs && forall i :: 0 <= i < |xs| ==> v <= xs[i]
  }

  /** v is one of xs and no value of xs is above it. */
  predicate IsMax(v: real, xs: seq<real>)
  {
    v in xs && forall i :: 0 <= i < |xs| ==> xs[i] <= v
  }

  /**
   The markers of a percentile that has seen xs: up to five values are
   held as they came; afterwards the lowest and highest heights are the
   smallest and largest value seen.
   */
  predicate MarkersTrack(m: Markers, xs: seq<real>)
  {
    |m.q| == 5 &&
    (|xs| <= 5 ==> m.q[..|xs|] == xs) &&
    (|xs| > 5 ==> IsMin(m.q[0], xs) && IsMax(m.q[4], xs))
  }

  predicate Tracks(e: Estimator, xs: seq<real>)
  {
    e.count == |xs| && forall i :: 0 <= i < |e.markers| ==> MarkersTrack(e.markers[i], xs)
  }

  /** The first and last of a sorted permutation are the smallest and largest values. */
  lemma {:induction false} SortedEnds(r: seq<real>, xs: seq<real>)
    requires Sorted(r) && multiset(r) == multiset(xs) && |xs| > 0
    ensures |r| == |xs| && IsMin(r[0], xs) && IsMax(r[|r| - 1], xs)
  {
    assert |r| == |multiset(r)| == |multiset(xs)| == |xs|;
    assert r[0] in multiset(xs) && r[|r| - 1] in multiset(xs);
    forall i | 0 <= i < |xs|
      ensures r[0] <= xs[i] <= r[|r| - 1]
    {
      assert xs[i] in multiset(r);
      var j :| 0 <= j < |r| && r[j] == xs[i];
    }
  }

  /** The new lowest and highest after x arrives. */
  lemma {:induction false} ExtremesStep(lo: real, hi: real, xs: seq<real>, x: real)
    requires IsMin(lo, xs) && IsMax(hi, xs)
    ensures IsMin(if x < lo then x else lo, xs + [x])
    ensures IsMax(if hi < x then x else hi, xs + [x])
  {
  }

  /** A push keeps each marker set in step with the values seen. */
  lemma {:induction false} PushMarkersTrack(m: Markers, p: real, xs: seq<real>, x: real)
    requires MarkersValid(m, p, |xs|) && MarkersTrack(m, xs)
    ensures MarkersTrack(PushMarkers(m, |xs|, x), xs + [x])
  {
    if |xs| < 5 {
      StoreTracks(m, xs, x);
    } else if |xs| == 5 {
      assert m.q[..5] == m.q;
      SortTracks(m, xs, x);
    } else {
      ObserveTracks(m, xs, x);
    }
  }

  /** One of the first five values is stored after the ones before it. */
  lemma StoreTracks(m: Markers, xs: seq<real>, x: real)
    requires |m.q| == 5 && |xs| < 5 && m.q[..|xs|] == xs
    ensures MarkersTrack(m.(q := m.q[|xs| := x]), xs + [x])
  {
    assert m.q[|xs| := x][..|xs| + 1] == m.q[..|xs|] + [x];
  }

  /** The sixth value: the five stored values, once sorted, have the extremes at their ends. */
  lemma {:induction false} SortTracks(m: Markers, xs: seq<real>, x: real)
    requires Shaped(m) && Increasing(m.n) && m.q == xs
    ensures MarkersTrack(Observe(m.(q := Sort(m.q)), x), xs + [x])
  {
    var m' := m.(q := Sort(m.q));
    SortedEnds(m'.q, xs);
    OrderedIsSorted(m'.q);
    ObserveTracks(m', xs, x);
  }

  /** Past the fifth value the end heights follow the smallest and largest value seen. */
  lemma {:induction false} ObserveTracks(m: Markers, xs: seq<real>, x: real)
    requires Shaped(m) && Increasing(m.n) && Ordered(m.q) && |xs| >= 5
    requires IsMin(m.q[0], xs) && IsMax(m.q[4], xs)
    ensures MarkersTrack(Observe(m, x), xs + [x])
  {
    ObserveFacts(m, x);
    ResetEndsOrdered(m.q, x);
    ExtremesStep(m.q[0], m.q[4], xs, x);
  }

  /** After a push the estimator has seen the values so far and x. */
  lemma {:induction false} PushTracks(e: Estimator, xs: seq<real>, x: real)
    requires Valid(e) && Tracks(e, xs)
    ensures Tracks(Push(e, x), xs + [x])
  {
    forall i | 0 <= i < |e.markers|
      ensures MarkersTrack(Push(e, x).markers[i], xs + [x])
    {
      PushMarkersTrack(e.markers[i], e.percentiles[i], xs, x);
    }
  }

  lemma {:induction false} PushAllTracks(e: Estimator, xs: seq<real>, ys: seq<real>)
    requires Valid(e) && Tracks(e, xs)
    ensures Tracks(PushAll(e, ys), xs + ys)
    decreases |ys|
  {
    if |ys| == 0 {
      assert xs + ys == xs;
    } else {
      var init := ys[..|ys| - 1];
      PushAllTracks(e, xs, init);
      PushTracks(PushAll(e, init), xs + init, ys[|ys| - 1]);
      assert xs + init + [ys[|ys| - 1]] == xs + ys;
    }
  }

  /** Some value of xs is at most v and some value of xs is at least v. */
  predicate Spanned(v: real, xs: seq<real>)
  {
    (exists j :: 0 <= j < |xs| && xs[j] <= v) && (exists k :: 0 <= k < |xs| && v <= xs[k])
  }

  /**
   Once more than five values have been pushed, every estimate lies within
   the range of the values seen: no value is below the smallest of them
   and none above the largest.
   */
  lemma {:induction false} EstimatesWithinRange(e: Estimator, xs: seq<real>)
    requires Valid(e) && Tracks(e, xs) && |xs| > 5
    ensures forall i :: 0 <= i < |PercentileValues(e)| ==> Spanned(PercentileValues(e)[i], xs)
  {
    forall i | 0 <= i < |PercentileValues(e)|
      ensures Spanned(PercentileValues(e)[i], xs)
    {
      assert MarkersTrack(e.markers[i], xs);
      assert MarkersValid(e.markers[i], e.percentiles[i], e.count);
      MiddleWithinRange(e.markers[i].q, xs);
    }
  }

  /** The middle height of ordered markers whose ends are the extremes of xs lies within their range. */
  lemma {:induction false} MiddleWithinRange(q: seq<real>, xs: seq<real>)
    requires Ordered(q) && IsMin(q[0], xs) && IsMax(q[4], xs)
    ensures Spanned(q[2], xs)
  {
    var lo :| 0 <= lo < |xs| && xs[lo] == q[0];
    var hi :| 0 <= hi < |xs| && xs[hi] == q[4];
    assert xs[lo] <= q[2] <= xs[hi];
  }

  /** Pushing values into a fresh estimator: it tracks them, and each estimate stays within their range. */
  lemma {:induction false} AccumulateTracks(ps: seq<real>, xs: seq<real>)
    requires forall i :: 0 <= i < |ps| ==> InRange(ps[i])
    ensures Valid(Fresh(ps)) && Tracks(PushAll(Fresh(ps), xs), xs)
  {
    FreshValid(ps);
    PushAllTracks(Fresh(ps), [], xs);
    assert [] + xs == xs;
  }

  lemma {:induction false} FreshValid(ps: seq<real>)
    requires forall i :: 0 <= i < |ps| ==> InRange(ps[i])
    ensures Valid(Fresh(ps)) && Tracks(Fresh(ps), [])
  {
    forall i | 0 <= i < |ps|
      ensures MarkersValid(Fresh(ps).markers[i], ps[i], 0) && MarkersTrack(Fresh(ps).markers[i], [])
    {
      InitialValid(ps[i]);
    }
  }

  // ---------------------------------------------------------------------
  // Cell selection

  /**
   The selected cell: a value below the lowest height resets it and
   selects cell 1, one above the highest resets it and selects cell 4, and
   a value in between with ordered heights selects the cell k with
   q[k - 1] <= x < q[k].  A value equal to the highest height selects
   cell 1.
   */
  lemma SelectCellFacts(q: seq<real>, x: real)
    requires Ordered(q)
    ensures x < q[0] ==> SelectCell(q, x) == 1
    ensures q[4] < x ==> SelectCell(q, x) == 4
    ensures q[0] <= x < q[4] ==> q[SelectCell(q, x) - 1] <= x < q[SelectCell(q, x)]
    ensures x == q[4] ==> SelectCell(q, x) == 1
  {
  }

  // ---------------------------------------------------------------------
  // Independence of the percentiles

  /** Percentile i of an estimator alone, with its own markers and the shared count. */
  function Alone(e: Estimator, i: int): (a: Estimator)
    requires 0 <= i < |e.markers| && |e.markers| == |e.percentiles|
  {
    Estimator([e.percentiles[i]], [e.markers[i]], e.count)
  }

  /** Each percentile's markers evolve as if it were the only one tracked. */
  lemma {:induction false} Independent(e: Estimator, xs: seq<real>, i: int)
    requires Valid(e) && 0 <= i < |e.markers|
    ensures Valid(Alone(e, i))
    ensures PushAll(e, xs).markers[i] == PushAll(Alone(e, i), xs).markers[0]
    decreases |xs|
  {
    assert Valid(Alone(e, i));
    if |xs| > 0 {
      var init := xs[..|xs| - 1];
      Independent(e, init, i);
    }
  }
}
