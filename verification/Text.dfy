/** The string operations of the host language that the pipeline relies on:
    whitespace trimming, line breaking, substring search and case folding. */
module Text {

  /** The characters removed by a bare strip(). */
  predicate IsSpace(c: char) {
    || '\t' <= c <= '\r'
    || '\U{1c}' <= c <= '\U{20}'
    || c == '\U{85}' || c == '\U{a0}' || c == '\U{1680}'
    || '\U{2000}' <= c <= '\U{200a}'
    || c == '\U{2028}' || c == '\U{2029}' || c == '\U{202f}' || c == '\U{205f}' || c == '\U{3000}'
  }

  /** The characters at which splitlines() ends a line. */
  predicate IsBreak(c: char) {
    || '\n' <= c <= '\r'
    || '\U{1c}' <= c <= '\U{1e}'
    || c == '\U{85}' || c == '\U{2028}' || c == '\U{2029}'
  }

  predicate AllSpace(s: string) {
    forall i | 0 <= i < |s| :: IsSpace(s[i])
  }

  // ---------------------------------------------------------------- trimming

  function TrimStart(s: string): string {
    if s != "" && IsSpace(s[0]) then TrimStart(s[1..]) else s
  }

  function TrimEnd(s: string): string {
    if s != "" && IsSpace(s[|s| - 1]) then TrimEnd(s[..|s| - 1]) else s
  }

  function Trim(s: string): string {
    TrimEnd(TrimStart(s))
  }

  /** No whitespace at either end. */
  predicate Trimmed(s: string) {
    s != "" ==> !IsSpace(s[0]) && !IsSpace(s[|s| - 1])
  }

  lemma {:induction false} TrimStartSplits(s: string) returns (pre: string)
    ensures s == pre + TrimStart(s) && AllSpace(pre)
    ensures TrimStart(s) != "" ==> !IsSpace(TrimStart(s)[0])
  {
    if s != "" && IsSpace(s[0]) {
      var rest := TrimStartSplits(s[1..]);
      pre := [s[0]] + rest;
      assert s == pre + TrimStart(s);
    } else {
      pre := "";
    }
  }

  lemma {:induction false} TrimEndSplits(s: string) returns (post: string)
    ensures s == TrimEnd(s) + post && AllSpace(post)
    ensures TrimEnd(s) != "" ==> !IsSpace(TrimEnd(s)[|TrimEnd(s)| - 1])
  {
    if s != "" && IsSpace(s[|s| - 1]) {
      var rest := TrimEndSplits(s[..|s| - 1]);
      post := rest + [s[|s| - 1]];
      assert s == TrimEnd(s) + post;
    } else {
      post := "";
    }
  }

  /** Trimming only removes whitespace, and only at the two ends. */
  lemma TrimSplits(s: string) returns (pre: string, post: string)
    ensures s == pre + Trim(s) + post
    ensures AllSpace(pre) && AllSpace(post) && Trimmed(Trim(s))
  {
    pre := TrimStartSplits(s);
    post := TrimEndSplits(TrimStart(s));
    assert Trim(s) != "" ==> Trim(s)[0] == TrimStart(s)[0];
  }

  lemma {:induction false} TrimStartDropsPadding(pre: string, s: string)
    requires AllSpace(pre)
    ensures TrimStart(pre + s) == TrimStart(s)
  {
    if pre == "" {
      assert pre + s == s;
    } else {
      assert (pre + s)[1..] == pre[1..] + s;
      TrimStartDropsPadding(pre[1..], s);
    }
  }

  lemma {:induction false} TrimEndDropsPadding(s: string, post: string)
    requires AllSpace(post)
    ensures TrimEnd(s + post) == TrimEnd(s)
  {
    if post == "" {
      assert s + post == s;
    } else {
      assert (s + post)[..|s + post| - 1] == s + post[..|post| - 1];
      TrimEndDropsPadding(s, post[..|post| - 1]);
    }
  }

  /** The trimmed core of a padded string is unique. */
  lemma TrimUnique(pre: string, core: string, post: string)
    requires AllSpace(pre) && AllSpace(post) && Trimmed(core)
    ensures Trim(pre + core + post) == core
  {
    assert pre + core + post == pre + (core + post);
    TrimStartDropsPadding(pre, core + post);
    if core == "" {
      assert core + post == post + "";
      TrimStartDropsPadding(post, "");
    } else {
      assert TrimStart(core + post) == core + post;
      TrimEndDropsPadding(core, post);
    }
  }

  lemma TrimEmptyIff(s: string)
    ensures Trim(s) == "" <==> AllSpace(s)
  {
    var pre, post := TrimSplits(s);
    if AllSpace(s) {
      assert s + "" + "" == s;
      TrimUnique(s, "", "");
    }
  }

  // --------------------------------------------------------------- searching

  predicate OccursAt(s: string, k: string, i: int) {
    0 <= i && i + |k| <= |s| && s[i..i + |k|] == k
  }

  /** `k in s` on strings. */
  predicate Contains(s: string, k: string) {
    exists i | 0 <= i <= |s| - |k| :: OccursAt(s, k, i)
  }

  lemma ContainsInParts(x: string, y: string, k: string)
    ensures Contains(x, k) || Contains(y, k) ==> Contains(x + y, k)
  {
    if i :| 0 <= i <= |x| - |k| && OccursAt(x, k, i) {
      assert (x + y)[i..i + |k|] == x[i..i + |k|];
      assert OccursAt(x + y, k, i);
    } else if i :| 0 <= i <= |y| - |k| && OccursAt(y, k, i) {
      assert (x + y)[|x| + i..|x| + i + |k|] == y[i..i + |k|];
      assert OccursAt(x + y, k, |x| + i);
    }
  }

  /** A keyword cannot straddle a boundary whose last character it lacks. */
  lemma ContainsAcross(x: string, y: string, k: string)
    requires k != "" && (x == "" || x[|x| - 1] !in k)
    ensures Contains(x + y, k) <==> Contains(x, k) || Contains(y, k)
  {
    ContainsInParts(x, y, k);
    if i :| 0 <= i <= |x + y| - |k| && OccursAt(x + y, k, i) {
      if i + |k| <= |x| {
        assert x[i..i + |k|] == (x + y)[i..i + |k|];
        assert OccursAt(x, k, i);
      } else if i >= |x| {
        assert y[i - |x|..i - |x| + |k|] == (x + y)[i..i + |k|];
        assert OccursAt(y, k, i - |x|);
      } else {
        StraddlingHits(x, y, k, i);
      }
    }
  }

  lemma StraddlingHits(x: string, y: string, k: string, i: nat)
    requires OccursAt(x + y, k, i) && i < |x| < i + |k|
    ensures x[|x| - 1] in k
  {
    assert (x + y)[i..i + |k|][|x| - 1 - i] == x[|x| - 1];
  }

  /** A keyword that does not start with `c` is not created by a leading `c`. */
  lemma ContainsAfter(c: char, y: string, k: string)
    requires k != "" && k[0] != c
    ensures Contains([c] + y, k) <==> Contains(y, k)
  {
    ContainsInParts([c], y, k);
    if i :| 0 <= i <= |[c] + y| - |k| && OccursAt([c] + y, k, i) {
      if i == 0 {
        assert false;
      } else {
        assert y[i - 1..i - 1 + |k|] == ([c] + y)[i..i + |k|];
        assert OccursAt(y, k, i - 1);
      }
    }
  }

  /** A character foreign to the keyword separates two texts. */
  lemma ContainsSeparated(x: string, c: char, y: string, k: string)
    requires k != "" && c !in k
    ensures Contains(x + ([c] + y), k) <==> Contains(x, k) || Contains(y, k)
  {
    var left := x + [c];
    assert x + ([c] + y) == left + y;
    ContainsAcross(left, y, k);
    ContainsInParts(x, [c], k);
    if i :| 0 <= i <= |left| - |k| && OccursAt(left, k, i) {
      if i + |k| <= |x| {
        assert x[i..i + |k|] == left[i..i + |k|];
        assert OccursAt(x, k, i);
      } else {
        EndsOnLast(x, c, k, i);
      }
    }
  }

  lemma EndsOnLast(x: string, c: char, k: string, i: nat)
    requires k != "" && OccursAt(x + [c], k, i) && i + |k| == |x| + 1
    ensures c in k
  {
    assert (x + [c])[i..i + |k|][|k| - 1] == c;
  }

  /** A string that lacks one character of the keyword lacks the keyword. */
  lemma LacksCharLacksKeyword(s: string, k: string, j: nat)
    requires j < |k| && k[j] !in s
    ensures !Contains(s, k)
  {
    if i :| 0 <= i <= |s| - |k| && OccursAt(s, k, i) {
      assert false;
    }
  }

  // ------------------------------------------------------------- case folding

  /** A character-wise case mapping. One character may fold to several. */
  type Folding = char -> string

  function Fold(low: Folding, s: string): string {
    if s == "" then "" else low(s[0]) + Fold(low, s[1..])
  }

  /** What every folding used here does on ASCII text and on line breaks: upper
      case letters go down, everything else (blanks and breaks included) stays. */
  ghost predicate FoldsLikeLower(low: Folding) {
    && (forall c: char | c < '\U{80}' && !('A' <= c <= 'Z') :: low(c) == [c])
    && (forall c: char | IsBreak(c) :: low(c) == [c])
  }

  lemma {:induction false} FoldConcat(low: Folding, x: string, y: string)
    ensures Fold(low, x + y) == Fold(low, x) + Fold(low, y)
  {
    if x == "" {
      assert x + y == y;
    } else {
      assert (x + y)[1..] == x[1..] + y;
      FoldConcat(low, x[1..], y);
    }
  }

  /** With FoldConcat this says what the folding of any text is. */
  lemma FoldOne(low: Folding, c: char)
    ensures Fold(low, [c]) == low(c) && Fold(low, "") == ""
  {
    assert [c][1..] == "";
    assert low(c) + "" == low(c);
  }

  lemma {:induction false} FoldFixed(low: Folding, s: string)
    requires forall i | 0 <= i < |s| :: low(s[i]) == [s[i]]
    ensures Fold(low, s) == s
  {
    if s != "" {
      FoldFixed(low, s[1..]);
      assert s == [s[0]] + s[1..];
    }
  }

  // ------------------------------------------------------------ line by line

  /** Length of the first line, its terminator included. */
  function LineLength(s: string): (n: nat)
    requires s != ""
    ensures 1 <= n <= |s|
    ensures n == |s| || IsBreak(s[n - 1])
  {
    if s[0] == '\r' && |s| > 1 && s[1] == '\n' then 2
    else if IsBreak(s[0]) || |s| == 1 then 1
    else 1 + LineLength(s[1..])
  }

  const MARGIN := "    "

  /** Indent every line that is not blank, as textwrap.indent does. */
  function Indent(s: string): string {
    if s == "" then ""
    else
      var n := LineLength(s);
      (if Trim(s[..n]) != "" then MARGIN + s[..n] else s[..n]) + Indent(s[n..])
  }

  predicate OneLine(s: string) {
    forall i | 0 <= i < |s| :: !IsBreak(s[i])
  }

  /** What can end a line; a carriage return and the line feed after it end it together. */
  predicate EndsLine(end: string, rest: string) {
    || end == "\r\n"
    || (|end| == 1 && IsBreak(end[0]) && (end == "\r" && rest != "" ==> rest[0] != '\n'))
  }

  lemma {:induction false} FirstLineIs(line: string, end: string, rest: string)
    requires OneLine(line) && EndsLine(end, rest)
    ensures LineLength(line + end + rest) == |line + end|
  {
    var s := line + end + rest;
    if line == "" {
      assert s == end + rest;
    } else {
      assert s[0] == line[0] && s[1..] == line[1..] + end + rest;
      FirstLineIs(line[1..], end, rest);
    }
  }

  lemma {:induction false} LastLineIs(line: string)
    requires OneLine(line) && line != ""
    ensures LineLength(line) == |line|
  {
    if |line| > 1 {
      LastLineIs(line[1..]);
    }
  }

  lemma BlankLineIff(line: string, end: string)
    requires end == "" || EndsLine(end, "")
    ensures Trim(line + end) == "" <==> AllSpace(line)
  {
    TrimEmptyIff(line + end);
    if AllSpace(line + end) {
      forall i | 0 <= i < |line|
        ensures IsSpace(line[i])
      {
        assert (line + end)[i] == line[i];
      }
    }
  }

  lemma IndentSplits(head: string, rest: string)
    requires head != "" && LineLength(head + rest) == |head|
    ensures Indent(head + rest) == (if Trim(head) != "" then MARGIN + head else head) + Indent(rest)
  {
    var s := head + rest;
    assert s[..|head|] == head && s[|head|..] == rest;
  }

  lemma IndentsFirstLine(line: string, end: string, rest: string)
    requires OneLine(line) && EndsLine(end, rest)
    ensures Indent(line + end + rest) == (if AllSpace(line) then "" else "    ") + line + end + Indent(rest)
  {
    FirstLineIs(line, end, rest);
    IndentSplits(line + end, rest);
    BlankLineIff(line, end);
    if AllSpace(line) {
      assert "" + line == line;
    } else {
      assert MARGIN + (line + end) == "    " + line + end;
    }
  }

  lemma IndentsLastLine(line: string)
    requires OneLine(line)
    ensures Indent(line) == (if AllSpace(line) then "" else "    ") + line
  {
    if line != "" {
      LastLineIs(line);
      BlankLineIff(line, "");
      assert line + "" == line && line[..|line|] == line && line[|line|..] == "";
      assert Indent("") == "";
    }
  }

  /** Line by line: four blanks go before every line that is not blank, and nothing else
      changes, the line ends included. */
  lemma IndentsEachLine(line: string, end: string, rest: string)
    requires OneLine(line)
    ensures EndsLine(end, rest) ==>
              Indent(line + end + rest) == (if AllSpace(line) then "" else "    ") + line + end + Indent(rest)
    ensures Indent(line) == (if AllSpace(line) then "" else "    ") + line
  {
    if EndsLine(end, rest) {
      IndentsFirstLine(line, end, rest);
    }
    IndentsLastLine(line);
  }

  // ----------------------------------------------------------------- ordering

  /** Lexicographic order by code point. */
  predicate StringLe(a: string, b: string) {
    a == "" || (b != "" && (a[0] < b[0] || (a[0] == b[0] && StringLe(a[1..], b[1..]))))
  }

  /** A prefix, or smaller where they first differ. */
  ghost predicate Precedes(a: string, b: string) {
    a <= b || exists i :: DifferFirst(a, b, i) && a[i] < b[i]
  }

  ghost predicate DifferFirst(a: string, b: string, i: int) {
    0 <= i < |a| && i < |b| && (forall k | 0 <= k < i :: a[k] == b[k]) && a[i] != b[i]
  }

  lemma {:induction false} StringLeIff(a: string, b: string)
    ensures StringLe(a, b) <==> Precedes(a, b)
  {
    if a == "" {
    } else if b == "" {
    } else if a[0] != b[0] {
      assert DifferFirst(a, b, 0);
    } else {
      StringLeIff(a[1..], b[1..]);
      TailsPrecede(a, b);
    }
  }

  lemma TailsPrecede(a: string, b: string)
    requires a != "" && b != "" && a[0] == b[0]
    ensures Precedes(a, b) <==> Precedes(a[1..], b[1..])
  {
    assert a == [a[0]] + a[1..] && b == [b[0]] + b[1..];
    if i :| DifferFirst(a, b, i) && a[i] < b[i] {
      assert DifferFirst(a[1..], b[1..], i - 1);
    }
    if i :| DifferFirst(a[1..], b[1..], i) && a[1..][i] < b[1..][i] {
      assert forall k | 0 < k <= i :: a[k] == a[1..][k - 1] && b[k] == b[1..][k - 1];
      assert DifferFirst(a, b, i + 1);
    }
  }

  lemma {:induction false} StringLeTotal(a: string, b: string)
    ensures StringLe(a, b) || StringLe(b, a)
    ensures StringLe(a, b) && StringLe(b, a) ==> a == b
  {
    if a != "" && b != "" {
      StringLeTotal(a[1..], b[1..]);
      assert a == [a[0]] + a[1..] && b == [b[0]] + b[1..];
    }
  }

  lemma {:induction false} StringLeTransitive(a: string, b: string, c: string)
    requires StringLe(a, b) && StringLe(b, c)
    ensures StringLe(a, c)
  {
    if a != "" && b != "" && c != "" {
      if a[0] == b[0] == c[0] {
        StringLeTransitive(a[1..], b[1..], c[1..]);
      }
    }
  }
}
