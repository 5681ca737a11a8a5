/** Removal of a surrounding markdown fence from generated code. */
module Fence {
  import opened Prelude
  import opened Text

  const TICKS := "```"

  /** The characters allowed in a language tag. */
  predicate IsTagChar(c: char) {
    'A' <= c <= 'Z' || 'a' <= c <= 'z' || '0' <= c <= '9' || c == '_' || c == '+' || c == '-'
  }

  predicate IsTag(s: string) {
    forall i | 0 <= i < |s| :: IsTagChar(s[i])
  }

  // ------------------------------------------------ the pattern, as a relation

  /** One way to read the whole of `s` as a fenced block around `group`. */
  ghost predicate Reads(s: string, tag: string, group: string) {
    && IsTag(tag)
    && (s == TICKS + tag + "\n" + group + TICKS || s == TICKS + tag + "\n" + group + "\n" + TICKS)
  }

  /** The lazy group of the pattern is the shortest one any reading allows. */
  ghost predicate LazyMatch(s: string, group: string) {
    && (exists tag :: Reads(s, tag, group))
    && (forall tag', group' :: Reads(s, tag', group') ==> |group| <= |group'|)
  }

  // ------------------------------------------------------------- the matcher

  function TagLength(s: string): (n: nat)
    ensures n <= |s| && IsTag(s[..n])
    ensures n == |s| || !IsTagChar(s[n])
  {
    if s != "" && IsTagChar(s[0]) then 1 + TagLength(s[1..]) else 0
  }

  predicate EndsWith(s: string, suffix: string) {
    |suffix| <= |s| && s[|s| - |suffix|..] == suffix
  }

  /** What follows the opening line, if `s` has one. */
  function AfterOpening(s: string): Option<string> {
    if TICKS <= s then
      var n := TagLength(s[3..]);
      var rest := s[3..][n..];
      if rest != "" && rest[0] == '\n' then Some(rest[1..]) else None
    else None
  }

  /** Find the group of a fenced block. */
  function Match(s: string): Option<string> {
    match AfterOpening(s)
    case None => None
    case Some(body) =>
      if EndsWith(body, "\n" + TICKS) then Some(body[..|body| - 4])
      else if EndsWith(body, TICKS) then Some(body[..|body| - 3])
      else None
  }

  function StripMarkdownFence(text: string): string {
    var stripped := Trim(text);
    match Match(stripped)
    case Some(group) => Trim(group)
    case None => stripped
  }

  // ------------------------------------------------------------------ proofs

  lemma {:induction false} TagStopsAtBreak(tag: string, rest: string)
    requires IsTag(tag) && rest != "" && rest[0] == '\n'
    ensures TagLength(tag + rest) == |tag|
  {
    if tag == "" {
      assert tag + rest == rest;
    } else {
      assert (tag + rest)[1..] == tag[1..] + rest;
      TagStopsAtBreak(tag[1..], rest);
    }
  }

  /** The opening line can be read in one way only. */
  lemma OpeningUnique(tag: string, body: string)
    requires IsTag(tag)
    ensures AfterOpening(TICKS + tag + "\n" + body) == Some(body)
  {
    var s := TICKS + tag + "\n" + body;
    var rest := "\n" + body;
    assert s[..3] == TICKS && s[3..] == tag + rest;
    TagStopsAtBreak(tag, rest);
    assert (tag + rest)[|tag|..] == rest;
    assert rest[1..] == body;
  }

  lemma OpeningSplits(s: string) returns (tag: string)
    requires AfterOpening(s).Some?
    ensures IsTag(tag) && s == TICKS + tag + "\n" + AfterOpening(s).value
  {
    var n := TagLength(s[3..]);
    tag := s[3..][..n];
    var rest := s[3..][n..];
    assert s == s[..3] + s[3..];
    assert s[3..] == tag + rest;
    assert rest == "\n" + rest[1..];
  }

  /** Every reading of `s` ends the body of the one opening line. */
  lemma ReadingEndsBody(s: string, tag: string, group: string)
    requires Reads(s, tag, group)
    ensures AfterOpening(s).Some?
    ensures var body := AfterOpening(s).value;
            body == group + TICKS || body == group + "\n" + TICKS
  {
    if s == TICKS + tag + "\n" + group + TICKS {
      assert s == TICKS + tag + "\n" + (group + TICKS);
      OpeningUnique(tag, group + TICKS);
    } else {
      assert s == TICKS + tag + "\n" + (group + "\n" + TICKS);
      OpeningUnique(tag, group + "\n" + TICKS);
    }
  }

  lemma SuffixIs(x: string, t: string)
    ensures EndsWith(x + t, t) && (x + t)[..|x + t| - |t|] == x
  {
  }

  lemma EndsWithSplits(body: string, suffix: string)
    requires EndsWith(body, suffix)
    ensures body == body[..|body| - |suffix|] + suffix
  {
  }

  /** The matcher finds a block exactly when the pattern reads the text, and then
      returns the lazy group. */
  lemma MatchIsLazyMatch(s: string, group: string)
    ensures Match(s) == Some(group) <==> LazyMatch(s, group)
  {
    if Match(s) == Some(group) {
      MatchIsShortest(s, group);
    }
    if LazyMatch(s, group) {
      var tag :| Reads(s, tag, group);
      ReadingEndsBody(s, tag, group);
      ReadingMatches(AfterOpening(s).value, group);
      var found := Match(s).value;
      MatchIsShortest(s, found);
      LazyMatchIsUnique(s, group, found);
    }
  }

  lemma LazyMatchIsUnique(s: string, x: string, y: string)
    requires LazyMatch(s, x) && LazyMatch(s, y)
    ensures x == y
  {
    var tag :| Reads(s, tag, x);
    var tag' :| Reads(s, tag', y);
    ReadingEndsBody(s, tag, x);
    ReadingEndsBody(s, tag', y);
    var body := AfterOpening(s).value;
    assert |x| == |y|;
    assert body[..|x|] == x && body[..|y|] == y;
  }

  lemma ReadingMatches(body: string, group: string)
    requires body == group + TICKS || body == group + "\n" + TICKS
    ensures EndsWith(body, TICKS)
  {
    SuffixIs(group, TICKS);
    SuffixIs(group + "\n", TICKS);
  }

  lemma Regroup(head: string, group: string, mid: string, tail: string)
    ensures head + (group + (mid + tail)) == head + group + mid + tail
    ensures head + (group + tail) == head + group + tail
  {
  }

  lemma MatchReads(s: string, group: string) returns (tag: string)
    requires Match(s) == Some(group)
    ensures Reads(s, tag, group)
  {
    var body := AfterOpening(s).value;
    tag := OpeningSplits(s);
    if EndsWith(body, "\n" + TICKS) {
      EndsWithSplits(body, "\n" + TICKS);
      Regroup(TICKS + tag + "\n", group, "\n", TICKS);
    } else {
      EndsWithSplits(body, TICKS);
      Regroup(TICKS + tag + "\n", group, "", TICKS);
    }
  }

  lemma LongTail(group: string)
    ensures EndsWith(group + "\n" + TICKS, "\n" + TICKS)
    ensures (group + "\n" + TICKS)[..|group|] == group
  {
    SuffixIs(group, "\n" + TICKS);
    assert group + ("\n" + TICKS) == group + "\n" + TICKS;
  }

  lemma ReadingIsNoShorter(s: string, group: string, tag': string, group': string)
    ensures Match(s) == Some(group) && Reads(s, tag', group') ==> |group| <= |group'|
  {
    if Reads(s, tag', group') {
      ReadingEndsBody(s, tag', group');
      LongTail(group');
    }
  }

  lemma MatchIsShortest(s: string, group: string)
    requires Match(s) == Some(group)
    ensures LazyMatch(s, group)
  {
    var tag := MatchReads(s, group);
    forall tag', group' | Reads(s, tag', group')
      ensures |group| <= |group'|
    {
      ReadingIsNoShorter(s, group, tag', group');
    }
  }

  /** Text with no reading has no match. */
  lemma NoMatchMeansNoReading(s: string)
    ensures Match(s).None? <==> !exists tag, group :: Reads(s, tag, group)
  {
    if Match(s).Some? {
      var tag := MatchReads(s, Match(s).value);
    }
    if tag, group :| Reads(s, tag, group) {
      ReadingEndsBody(s, tag, group);
      ReadingMatches(AfterOpening(s).value, group);
    }
  }

  function FenceBlock(tag: string, payload: string): string {
    TICKS + tag + "\n" + payload + "\n" + TICKS
  }

  lemma BlockMatches(tag: string, payload: string)
    requires IsTag(tag)
    ensures Match(FenceBlock(tag, payload)) == Some(payload)
  {
    var body := payload + "\n" + TICKS;
    Regroup(TICKS + tag + "\n", payload, "\n", TICKS);
    assert payload + ("\n" + TICKS) == body;
    OpeningUnique(tag, body);
    LongTail(payload);
  }

  lemma BlockTrimmed(tag: string, payload: string)
    ensures Trimmed(FenceBlock(tag, payload))
  {
    var block := FenceBlock(tag, payload);
    assert block[0] == '`';
    SuffixIs(TICKS + tag + "\n" + payload + "\n", TICKS);
    assert block[|block| - 1] == '`';
  }

  /** Fencing then stripping gives the payload back, trimmed, whatever the payload
      holds: an inner fence stays in place. */
  lemma RoundTrip(tag: string, payload: string, pre: string, post: string)
    requires IsTag(tag) && AllSpace(pre) && AllSpace(post)
    ensures StripMarkdownFence(pre + FenceBlock(tag, payload) + post) == Trim(payload)
  {
    BlockTrimmed(tag, payload);
    TrimUnique(pre, FenceBlock(tag, payload), post);
    BlockMatches(tag, payload);
  }

  /** The result is trimmed and never longer; a fence that was found costs at
      least its seven characters. */
  lemma StripShrinks(text: string)
    ensures Trimmed(StripMarkdownFence(text))
    ensures |StripMarkdownFence(text)| <= |text|
    ensures Match(Trim(text)).Some? ==> |StripMarkdownFence(text)| + 7 <= |text|
  {
    var pre, post := TrimSplits(text);
    var stripped := Trim(text);
    if Match(stripped).Some? {
      var group := Match(stripped).value;
      var pre', post' := TrimSplits(group);
      var tag := MatchReads(stripped, group);
    }
  }

  lemma Unpadded(s: string)
    ensures "" + s + "" == s
  {
  }

  lemma OnceMore(text: string)
    ensures var once := StripMarkdownFence(text);
            StripMarkdownFence(once) == once <==> Match(once).None?
  {
    var once := StripMarkdownFence(text);
    StripShrinks(text);
    TrimUnique("", once, "");
    Unpadded(once);
    StripShrinks(once);
  }

  /** Stripping twice is stripping once exactly when the text is not a fenced block, or its
      payload, trimmed, is not one in turn. */
  lemma IdempotentIff(text: string)
    ensures var outer := Match(Trim(text));
            StripMarkdownFence(StripMarkdownFence(text)) == StripMarkdownFence(text)
            <==> outer.None? || Match(Trim(outer.value)).None?
  {
    OnceMore(text);
  }

  /** Text without a fence is only trimmed, and is then a fixed point. */
  lemma UnfencedIsFixed(text: string)
    requires Match(Trim(text)).None?
    ensures StripMarkdownFence(text) == Trim(text)
    ensures StripMarkdownFence(StripMarkdownFence(text)) == StripMarkdownFence(text)
  {
    IdempotentIff(text);
  }

  /** A fence around a fence: one application is not a fixed point. */
  lemma NestedFenceNeedsTwo(tag: string, inner: string, payload: string)
    requires IsTag(tag) && IsTag(inner)
    ensures var text := FenceBlock(tag, FenceBlock(inner, payload));
            && StripMarkdownFence(text) == FenceBlock(inner, payload)
            && StripMarkdownFence(StripMarkdownFence(text)) == Trim(payload)
  {
    var block := FenceBlock(inner, payload);
    Unpadded(FenceBlock(tag, block));
    Unpadded(block);
    RoundTrip(tag, block, "", "");
    RoundTrip(inner, payload, "", "");
    BlockTrimmed(inner, payload);
    TrimUnique("", block, "");
  }
}
