/** Taking one item out of a sequence. */
module Sequences {

  lemma DropOne<T>(y: seq<T>, j: nat)
    requires j < |y|
    ensures multiset(y[..j] + y[j + 1..]) == multiset(y) - multiset{y[j]}
  {
    assert y == y[..j] + [y[j]] + y[j + 1..];
  }

  lemma DropThenInit<T>(s: seq<T>, i: nat)
    requires i < |s| - 1
    ensures var rest := s[..i] + s[i + 1..];
            && rest != [] && rest[|rest| - 1] == s[|s| - 1]
            && rest[..|rest| - 1] == s[..|s| - 1][..i] + s[..|s| - 1][i + 1..]
  {
  }

  lemma SameWithout<T>(x: seq<T>, y: seq<T>, j: nat)
    requires multiset(x) == multiset(y) && x != [] && j < |y| && y[j] == x[|x| - 1]
    ensures multiset(x[..|x| - 1]) == multiset(y[..j] + y[j + 1..])
  {
    DropOne(y, j);
    DropOne(x, |x| - 1);
    assert x[..|x| - 1] + x[|x|..] == x[..|x| - 1];
  }
}
