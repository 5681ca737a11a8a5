/** Stable insertion sort over a sequence, as the specification of sorted() and
    list.sort(): the result is ordered, is a rearrangement of the input that keeps
    items of equal rank in their order, and is the only ordered rearrangement when
    items of equal rank are equal. */
module Sorting {

  /** Any two items rank one way or the other, and ranking is transitive. */
  ghost predicate TotalPreorder<T(!new)>(le: (T, T) -> bool) {
    && (forall x, y :: le(x, y) || le(y, x))
    && (forall x, y, z :: le(x, y) && le(y, z) ==> le(x, z))
  }

  ghost predicate Ordered<T>(le: (T, T) -> bool, s: seq<T>) {
    forall i, j | 0 <= i < j < |s| :: le(s[i], s[j])
  }

  /** Put `x` before every item it does not rank strictly behind. */
  function Insert<T>(le: (T, T) -> bool, x: T, s: seq<T>): (r: seq<T>)
    ensures multiset(r) == multiset{x} + multiset(s)
  {
    if s == [] then [x]
    else if le(x, s[0]) then
      assert multiset([x] + s) == multiset{x} + multiset(s);
      [x] + s
    else
      assert s == [s[0]] + s[1..];
      [s[0]] + Insert(le, x, s[1..])
  }

  function Sort<T>(le: (T, T) -> bool, s: seq<T>): (r: seq<T>)
    ensures multiset(r) == multiset(s)
    ensures |r| == |s|
  {
    if s == [] then []
    else
      assert s == [s[0]] + s[1..];
      var r := Insert(le, s[0], Sort(le, s[1..]));
      assert |multiset(r)| == |multiset(s)|;
      r
  }

  lemma {:induction false} InsertOrdered<T(!new)>(le: (T, T) -> bool, x: T, s: seq<T>)
    requires TotalPreorder(le) && Ordered(le, s)
    ensures Ordered(le, Insert(le, x, s))
  {
    if s != [] && !le(x, s[0]) {
      var r := Insert(le, x, s[1..]);
      InsertOrdered(le, x, s[1..]);
      forall j | 0 <= j < |r|
        ensures le(s[0], r[j])
      {
        assert r[j] in multiset(r);
        assert r[j] == x || r[j] in s[1..];
      }
    }
  }

  lemma {:induction false} SortOrdered<T(!new)>(le: (T, T) -> bool, s: seq<T>)
    requires TotalPreorder(le)
    ensures Ordered(le, Sort(le, s))
  {
    if s != [] {
      SortOrdered(le, s[1..]);
      InsertOrdered(le, s[0], Sort(le, s[1..]));
    }
  }

  predicate Tied<T>(le: (T, T) -> bool, x: T, y: T) {
    le(x, y) && le(y, x)
  }

  /** The items of `s` that rank equal to `x`, in their order. */
  function Ties<T>(le: (T, T) -> bool, x: T, s: seq<T>): seq<T> {
    if s == [] then []
    else (if Tied(le, x, s[0]) then [s[0]] else []) + Ties(le, x, s[1..])
  }

  lemma TiesOfCons<T>(le: (T, T) -> bool, x: T, head: T, tail: seq<T>)
    ensures Ties(le, x, [head] + tail) == (if Tied(le, x, head) then [head] else []) + Ties(le, x, tail)
  {
    assert ([head] + tail)[1..] == tail;
  }

  lemma {:induction false} InsertStable<T(!new)>(le: (T, T) -> bool, x: T, y: T, s: seq<T>)
    requires forall z | z in s && Tied(le, x, y) && Tied(le, x, z) :: le(y, z)
    ensures Ties(le, x, Insert(le, y, s)) == (if Tied(le, x, y) then [y] else []) + Ties(le, x, s)
  {
    if s == [] || le(y, s[0]) {
      TiesOfCons(le, x, y, s);
    } else {
      var inserted := Insert(le, y, s[1..]);
      InsertStable(le, x, y, s[1..]);
      TiesOfCons(le, x, s[0], inserted);
      if Tied(le, x, y) {
        assert s[0] in s;
        assert Ties(le, x, [s[0]] + inserted) == Ties(le, x, inserted);
      } else {
        assert Ties(le, x, inserted) == Ties(le, x, s[1..]);
      }
    }
  }

  lemma TiedItemsRankEqual<T(!new)>(le: (T, T) -> bool, x: T, y: T, s: seq<T>)
    requires TotalPreorder(le)
    ensures forall z | z in s && Tied(le, x, y) && Tied(le, x, z) :: le(y, z)
  {
  }

  /** Items that rank equal keep the order they came in. */
  lemma {:induction false} SortStable<T(!new)>(le: (T, T) -> bool, x: T, s: seq<T>)
    requires TotalPreorder(le)
    ensures Ties(le, x, Sort(le, s)) == Ties(le, x, s)
  {
    if s != [] {
      SortStable(le, x, s[1..]);
      TiedItemsRankEqual(le, x, s[0], Sort(le, s[1..]));
      InsertStable(le, x, s[0], Sort(le, s[1..]));
    }
  }

  /** No two different items rank equal. */
  ghost predicate NoTies<T(!new)>(le: (T, T) -> bool, s: seq<T>) {
    forall x, y | x in s && y in s && le(x, y) && le(y, x) :: x == y
  }

  lemma SameHead<T(!new)>(le: (T, T) -> bool, s: seq<T>, t: seq<T>)
    requires TotalPreorder(le) && Ordered(le, s) && Ordered(le, t)
    requires multiset(s) == multiset(t) && NoTies(le, s) && s != [] && t != []
    ensures s[0] == t[0]
  {
    assert t[0] in multiset(s);
    assert s[0] in multiset(t);
    assert le(s[0], s[0]) && le(t[0], t[0]);
  }

  lemma SameTail<T>(s: seq<T>, t: seq<T>)
    requires multiset(s) == multiset(t) && s != [] && t != [] && s[0] == t[0]
    ensures multiset(s[1..]) == multiset(t[1..])
  {
    assert s == [s[0]] + s[1..] && t == [t[0]] + t[1..];
    assert multiset(s[1..]) == multiset(s) - multiset{s[0]};
    assert multiset(t[1..]) == multiset(t) - multiset{t[0]};
  }

  /** Two ordered rearrangements of each other are equal when there are no ties. */
  lemma {:induction false} OrderedUnique<T(!new)>(le: (T, T) -> bool, s: seq<T>, t: seq<T>)
    requires TotalPreorder(le) && Ordered(le, s) && Ordered(le, t)
    requires multiset(s) == multiset(t) && NoTies(le, s)
    ensures s == t
  {
    assert |multiset(s)| == |multiset(t)|;
    if s != [] {
      SameHead(le, s, t);
      SameTail(s, t);
      OrderedUnique(le, s[1..], t[1..]);
      assert s == [s[0]] + s[1..] && t == [t[0]] + t[1..];
    }
  }

  /** Sorting forgets the order of the input when there are no ties. */
  lemma SortIgnoresOrder<T(!new)>(le: (T, T) -> bool, s: seq<T>, t: seq<T>)
    requires TotalPreorder(le) && multiset(s) == multiset(t) && NoTies(le, s)
    ensures Sort(le, s) == Sort(le, t)
  {
    SortOrdered(le, s);
    SortOrdered(le, t);
    forall x | x in Sort(le, s)
      ensures x in s
    {
      assert x in multiset(Sort(le, s));
    }
    OrderedUnique(le, Sort(le, s), Sort(le, t));
  }
}
