/** The benchmark's interpolated percentile, over exact reals. */
module Percentile {
  import Sorting

  function AtMost(): (int, int) -> bool {
    (x, y) => x <= y
  }

  function Sorted(values: seq<int>): seq<int> {
    Sorting.Sort(AtMost(), values)
  }

  /** round(): to the nearest integer, ties to the even one. */
  function RoundHalfEven(x: real): int {
    var low := x.Floor;
    var rest := x - low as real;
    if rest < 0.5 then low
    else if rest > 0.5 then low + 1
    else if low % 2 == 0 then low
    else low + 1
  }

  /** The weighted mean of two values. */
  function Mix(a: int, b: int, t: real): real {
    a as real + (b - a) as real * t
  }

  /** The value at a fractional position of an ordered list. */
  function Interpolate(s: seq<int>, k: real): int
    requires s != [] && 0.0 <= k <= (|s| - 1) as real
  {
    var low := k.Floor;
    var high := if low + 1 < |s| - 1 then low + 1 else |s| - 1;
    if low == high then s[low]
    else RoundHalfEven(Mix(s[low], s[high], k - low as real))
  }

  function Position(n: nat, pct: real): (k: real)
    requires n > 0 && 0.0 <= pct <= 100.0
    ensures 0.0 <= k <= (n - 1) as real
  {
    PositionInRange((n - 1) as real, pct);
    (n - 1) as real * pct / 100.0
  }

  lemma PositionInRange(n: real, pct: real)
    requires n >= 0.0 && 0.0 <= pct <= 100.0
    ensures 0.0 <= n * pct / 100.0 <= n
  {
    assert n * pct <= n * 100.0;
  }

  /** Percentile of a list of integers; 0 for the empty list. */
  function Percentile(values: seq<int>, pct: real): int
    requires 0.0 <= pct <= 100.0
  {
    if values == [] then 0
    else if |values| == 1 then values[0]
    else Interpolate(Sorted(values), Position(|values|, pct))
  }

  // ---------------------------------------------------------------- rounding

  /** `r` is the integer nearest to `x`, the even one of two that are equally near. */
  ghost predicate Nearest(r: int, x: real) {
    && x - 0.5 <= r as real <= x + 0.5
    && (r as real == x - 0.5 || r as real == x + 0.5 ==> r % 2 == 0)
  }

  lemma RoundIsNearest(x: real, r: int)
    ensures Nearest(r, x) <==> r == RoundHalfEven(x)
  {
    var low := x.Floor;
    if Nearest(r, x) {
      assert r == low || r == low + 1;
    }
  }

  lemma RoundOfInteger(n: int)
    ensures RoundHalfEven(n as real) == n
  {
  }

  lemma RoundMonotone(x: real, y: real)
    requires x <= y
    ensures RoundHalfEven(x) <= RoundHalfEven(y)
  {
    assert x.Floor <= y.Floor;
    if x.Floor < y.Floor {
      assert RoundHalfEven(x) <= x.Floor + 1 <= y.Floor <= RoundHalfEven(y);
    }
  }

  // ----------------------------------------------------------- interpolation

  ghost predicate Ascending(s: seq<int>) {
    forall i, j | 0 <= i <= j < |s| :: s[i] <= s[j]
  }

  lemma SortedAscends(values: seq<int>)
    ensures Ascending(Sorted(values))
  {
    Sorting.SortOrdered(AtMost(), values);
    assert forall i, j | 0 <= i < j < |Sorted(values)| :: AtMost()(Sorted(values)[i], Sorted(values)[j]);
  }

  lemma TimesMonotone(x: real, t: real, u: real)
    requires 0.0 <= x && t <= u
    ensures x * t <= x * u
  {
  }

  /** Before rounding, the value lies between its two neighbours. */
  lemma MixBetween(a: int, b: int, t: real)
    requires a <= b && 0.0 <= t <= 1.0
    ensures a as real <= Mix(a, b, t) <= b as real
  {
    TimesMonotone((b - a) as real, 0.0, t);
    TimesMonotone((b - a) as real, t, 1.0);
  }

  lemma MixMonotone(a: int, b: int, t: real, u: real)
    requires a <= b && t <= u
    ensures Mix(a, b, t) <= Mix(a, b, u)
  {
    TimesMonotone((b - a) as real, t, u);
  }

  /** A weighted mean rises with both values. */
  lemma MixRises(a: int, b: int, c: int, d: int, t: real)
    requires a <= c && b <= d && 0.0 <= t <= 1.0
    ensures Mix(a, b, t) <= Mix(c, d, t)
  {
    MixSplits(a, b, t);
    MixSplits(c, d, t);
    RaiseBoth(1.0 - t, t, a as real, b as real, c as real, d as real);
  }

  lemma RaiseBoth(u: real, t: real, a: real, b: real, c: real, d: real)
    requires 0.0 <= u && 0.0 <= t && a <= c && b <= d
    ensures u * a + t * b <= u * c + t * d
  {
    TimesMonotone(u, a, c);
    TimesMonotone(t, b, d);
  }

  lemma MixSplits(a: int, b: int, t: real)
    ensures Mix(a, b, t) == (1.0 - t) * a as real + t * b as real
  {
    var x, y := a as real, b as real;
    assert (b - a) as real == y - x;
    assert (y - x) * t == y * t - x * t;
    assert (1.0 - t) * x == x - t * x;
  }

  lemma InterpolateBetween(s: seq<int>, k: real)
    requires s != [] && 0.0 <= k <= (|s| - 1) as real && Ascending(s)
    ensures s[k.Floor] <= Interpolate(s, k)
    ensures Interpolate(s, k) <= if k.Floor + 1 < |s| then s[k.Floor + 1] else s[k.Floor]
  {
    var low := k.Floor;
    if low < |s| - 1 {
      var t := k - low as real;
      var x := Mix(s[low], s[low + 1], t);
      MixBetween(s[low], s[low + 1], t);
      RoundMonotone(s[low] as real, x);
      RoundMonotone(x, s[low + 1] as real);
      RoundOfInteger(s[low]);
      RoundOfInteger(s[low + 1]);
    }
  }

  lemma InterpolateMonotone(s: seq<int>, k: real, m: real)
    requires s != [] && 0.0 <= k <= m <= (|s| - 1) as real && Ascending(s)
    ensures Interpolate(s, k) <= Interpolate(s, m)
  {
    var low := k.Floor;
    if low < m.Floor {
      InterpolateBetween(s, k);
      InterpolateBetween(s, m);
      assert s[low + 1] <= s[m.Floor];
    } else if low < |s| - 1 {
      var t, u := k - low as real, m - low as real;
      MixMonotone(s[low], s[low + 1], t, u);
      RoundMonotone(Mix(s[low], s[low + 1], t), Mix(s[low], s[low + 1], u));
    }
  }

  ghost predicate Below(s: seq<int>, t: seq<int>) {
    |s| == |t| && forall i | 0 <= i < |s| :: s[i] <= t[i]
  }

  lemma InterpolateRises(s: seq<int>, t: seq<int>, k: real)
    requires s != [] && 0.0 <= k <= (|s| - 1) as real && Below(s, t)
    ensures Interpolate(s, k) <= Interpolate(t, k)
  {
    var low := k.Floor;
    if low < |s| - 1 {
      var w := k - low as real;
      MixRises(s[low], s[low + 1], t[low], t[low + 1], w);
      RoundMonotone(Mix(s[low], s[low + 1], w), Mix(t[low], t[low + 1], w));
    }
  }

  // ------------------------------------------------- sorting keeps domination

  lemma InsertAtFront(x: int, s: seq<int>)
    requires Ascending([x] + s)
    ensures Sorting.Insert(AtMost(), x, s) == [x] + s
  {
    if s != [] {
      assert ([x] + s)[0] <= ([x] + s)[1];
    }
  }

  lemma ConsBelow(x: int, y: int, s: seq<int>, t: seq<int>)
    requires x <= y && Below(s, t)
    ensures Below([x] + s, [y] + t)
  {
  }

  lemma InsertUnfolds(x: int, s: seq<int>)
    requires s != []
    ensures Sorting.Insert(AtMost(), x, s)
         == if x <= s[0] then [x] + s else [s[0]] + Sorting.Insert(AtMost(), x, s[1..])
  {
  }

  lemma TailsKeep(s: seq<int>, t: seq<int>)
    requires Below(s, t) && Ascending(s) && Ascending(t) && s != []
    ensures Below(s[1..], t[1..]) && Ascending(s[1..]) && Ascending(t[1..])
    ensures s == [s[0]] + s[1..] && t == [t[0]] + t[1..] && s[0] <= t[0]
  {
  }

  /** Inserting a smaller item into a smaller ordered list gives a smaller list. */
  lemma {:induction false} InsertBelow(x: int, y: int, s: seq<int>, t: seq<int>)
    requires x <= y && Below(s, t) && Ascending(s) && Ascending(t)
    ensures Below(Sorting.Insert(AtMost(), x, s), Sorting.Insert(AtMost(), y, t))
    decreases |s|
  {
    if s != [] {
      InsertUnfolds(x, s);
      InsertUnfolds(y, t);
      TailsKeep(s, t);
      if x <= s[0] && y <= t[0] {
        ConsBelow(x, y, s, t);
      } else if x <= s[0] {
        InsertBelow(s[0], y, s[1..], t[1..]);
        InsertAtFront(s[0], s[1..]);
        ConsBelow(x, t[0], s, Sorting.Insert(AtMost(), y, t[1..]));
      } else if y <= t[0] {
        InsertBelow(x, t[0], s[1..], t[1..]);
        InsertAtFront(t[0], t[1..]);
        ConsBelow(s[0], y, Sorting.Insert(AtMost(), x, s[1..]), t);
      } else {
        InsertBelow(x, y, s[1..], t[1..]);
        ConsBelow(s[0], t[0], Sorting.Insert(AtMost(), x, s[1..]), Sorting.Insert(AtMost(), y, t[1..]));
      }
    }
  }

  lemma {:induction false} SortBelow(s: seq<int>, t: seq<int>)
    requires Below(s, t)
    ensures Below(Sorted(s), Sorted(t))
  {
    if s != [] {
      SortBelow(s[1..], t[1..]);
      SortedAscends(s[1..]);
      SortedAscends(t[1..]);
      InsertBelow(s[0], t[0], Sorted(s[1..]), Sorted(t[1..]));
    }
  }

  // ------------------------------------------------------------ main results

  lemma SortedFrom(values: seq<int>, i: nat)
    requires i < |values|
    ensures Sorted(values)[i] in values
  {
    assert Sorted(values)[i] in multiset(Sorted(values));
  }

  /** The percentile of a non-empty list lies between two of its values, hence between
      its least and its greatest one. */
  lemma WithinRange(values: seq<int>, pct: real) returns (v: int, w: int)
    requires values != [] && 0.0 <= pct <= 100.0
    ensures v in values && w in values && v <= Percentile(values, pct) <= w
  {
    if |values| == 1 {
      v, w := values[0], values[0];
    } else {
      var s := Sorted(values);
      var k := Position(|values|, pct);
      SortedAscends(values);
      InterpolateBetween(s, k);
      var high := if k.Floor + 1 < |s| then k.Floor + 1 else k.Floor;
      SortedFrom(values, k.Floor);
      SortedFrom(values, high);
      v, w := s[k.Floor], s[high];
    }
  }

  lemma InterpolateNearest(s: seq<int>, j: nat, t: real)
    requires j < |s| - 1 && 0.0 <= t < 1.0
    ensures Nearest(Interpolate(s, j as real + t), (1.0 - t) * s[j] as real + t * s[j + 1] as real)
  {
    var k := j as real + t;
    assert k.Floor == j && k - j as real == t;
    MixSplits(s[j], s[j + 1], t);
    RoundIsNearest(Mix(s[j], s[j + 1], t), Interpolate(s, k));
  }

  lemma SortedIsOnly(values: seq<int>, s: seq<int>)
    requires Ascending(s) && multiset(s) == multiset(values)
    ensures s == Sorted(values)
  {
    AtMostIsTotal();
    SortedAscends(values);
    Sorting.OrderedUnique(AtMost(), s, Sorted(values));
  }

  lemma PositionIs(n: nat, pct: real, k: real)
    requires n > 0 && 0.0 <= pct <= 100.0 && k * 100.0 == (n - 1) as real * pct
    ensures Position(n, pct) == k
  {
  }

  /** Let `s` be the values in order. Where pct hundredths of the way from the first to the
      last of them lie a fraction t of the way from the j-th to the next, the percentile is
      the integer nearest to the mean of those two, weighted 1 - t and t; ties go to the
      even one. */
  lemma NearestToWeightedMean(values: seq<int>, s: seq<int>, pct: real, j: nat, t: real)
    requires Ascending(s) && multiset(s) == multiset(values)
    requires j < |s| - 1 && 0.0 <= t < 1.0 && 0.0 <= pct <= 100.0
    requires (j as real + t) * 100.0 == (|values| - 1) as real * pct
    ensures Nearest(Percentile(values, pct), (1.0 - t) * s[j] as real + t * s[j + 1] as real)
  {
    SortedIsOnly(values, s);
    PositionIs(|values|, pct, j as real + t);
    InterpolateNearest(s, j, t);
  }

  /** Below 100 there is always such a place. */
  lemma PlaceExists(n: nat, pct: real) returns (j: nat, t: real)
    requires n > 1 && 0.0 <= pct < 100.0
    ensures j < n - 1 && 0.0 <= t < 1.0 && (j as real + t) * 100.0 == (n - 1) as real * pct
  {
    var last := (n - 1) as real;
    var k := last * pct / 100.0;
    PositionInRange(last, pct);
    assert last * pct < last * 100.0;
    assert k < last;
    j, t := k.Floor, k - k.Floor as real;
  }

  /** Nothing has percentile 0, and a single value is all its percentiles. */
  lemma FewValues(values: seq<int>, pct: real)
    requires 0.0 <= pct <= 100.0
    ensures values == [] ==> Percentile(values, pct) == 0
    ensures forall v | values == [v] :: Percentile(values, pct) == v
  {
  }

  /** It is the least value at 0 and the greatest at 100. */
  lemma Extremes(values: seq<int>)
    requires values != []
    ensures forall v | v in values :: Percentile(values, 0.0) <= v <= Percentile(values, 100.0)
    ensures Percentile(values, 0.0) in values && Percentile(values, 100.0) in values
  {
    var s := Sorted(values);
    var n := |values|;
    SortedAscends(values);
    if n > 1 {
      assert Position(n, 0.0) == 0.0;
      assert Position(n, 100.0) == (n - 1) as real;
      assert (0.0).Floor == 0 && ((n - 1) as real).Floor == n - 1;
      RoundOfInteger(s[0]);
      assert Interpolate(s, 0.0) == s[0] && Interpolate(s, (n - 1) as real) == s[n - 1];
      assert s[0] in multiset(s) && s[n - 1] in multiset(s);
    }
    forall v | v in values
      ensures Percentile(values, 0.0) <= v <= Percentile(values, 100.0)
    {
      assert v in multiset(s);
      var i :| 0 <= i < |s| && s[i] == v;
      assert s[0] <= s[i] <= s[n - 1];
    }
  }

  /** It never falls as the percentage rises. */
  lemma MonotoneInPercentage(values: seq<int>, p: real, q: real)
    requires 0.0 <= p <= q <= 100.0
    ensures Percentile(values, p) <= Percentile(values, q)
  {
    if |values| > 1 {
      SortedAscends(values);
      var n := (|values| - 1) as real;
      TimesMonotone(n, p, q);
      DivideMonotone(n * p, n * q);
      InterpolateMonotone(Sorted(values), Position(|values|, p), Position(|values|, q));
    }
  }

  lemma DivideMonotone(x: real, y: real)
    requires x <= y
    ensures x / 100.0 <= y / 100.0
  {
  }

  lemma AtMostIsTotal()
    ensures Sorting.TotalPreorder(AtMost())
  {
  }

  /** It does not depend on the order of the list. */
  lemma IgnoresOrder(a: seq<int>, b: seq<int>, pct: real)
    requires multiset(a) == multiset(b) && 0.0 <= pct <= 100.0
    ensures Percentile(a, pct) == Percentile(b, pct)
  {
    AtMostIsTotal();
    assert |multiset(a)| == |a| && |multiset(b)| == |b|;
    assert forall x, y | x in a && y in a && AtMost()(x, y) && AtMost()(y, x) :: x == y;
    Sorting.SortIgnoresOrder(AtMost(), a, b);
    if |a| == 1 {
      assert a[0] in multiset(b);
    }
  }

  /** It never falls when any values of the list are raised. */
  lemma RisesWithValues(a: seq<int>, b: seq<int>, pct: real)
    requires Below(a, b) && 0.0 <= pct <= 100.0
    ensures Percentile(a, pct) <= Percentile(b, pct)
  {
    if |a| > 1 {
      SortBelow(a, b);
      InterpolateRises(Sorted(a), Sorted(b), Position(|a|, pct));
    }
  }
}
