/** Ranked keyword search over the stored incidents. */
module Search {
  import opened Prelude
  import opened Sequences
  import opened Text
  import Sorting

  /** The fields of a result sidecar that search looks at; absent ones are empty. */
  datatype Sidecar = Sidecar(
    traceId: string,
    errorType: string,
    serviceName: string,
    summary: string,
    fixPlan: string)

  /** A file of the output directory; one that does not parse is skipped. */
  datatype StoredFile = StoredFile(jobId: string, content: Option<Sidecar>)

  datatype Incoming = Incoming(message: string, stackTrace: string)

  /** Everything a query is answered from. */
  datatype Query = Query(low: Folding, incoming: map<string, Incoming>, terms: seq<string>)

  datatype Hit = Hit(score: nat, id: string, title: string, resolution: string)

  datatype Summary = Summary(id: string, title: string, resolution: string)

  function Clamp(limit: int): (n: nat)
    ensures 1 <= n <= 50
    ensures 1 <= limit <= 50 ==> n == limit
    ensures (limit < 1 ==> n == 1) && (limit > 50 ==> n == 50)
  {
    var capped := if limit < 50 then limit else 50;
    if capped > 1 then capped else 1
  }

  function WordLength(s: string): (n: nat)
    ensures n <= |s|
  {
    if s != "" && !IsSpace(s[0]) then 1 + WordLength(s[1..]) else 0
  }

  /** A bare split(): the maximal runs of non-blank characters. */
  function Words(s: string): seq<string>
    decreases |s|
  {
    if s == "" then []
    else if IsSpace(s[0]) then Words(s[1..])
    else [s[..WordLength(s)]] + Words(s[WordLength(s)..])
  }

  function Haystack(query: Query, jobId: string, data: Sidecar): seq<string> {
    [data.errorType, data.serviceName, data.summary, data.fixPlan]
    + if jobId in query.incoming
      then [query.incoming[jobId].message, query.incoming[jobId].stackTrace]
      else []
  }

  /** How many of the fields hold the term, whatever the letter case. */
  function TermHits(low: Folding, term: string, fields: seq<string>): nat {
    if fields == [] then 0
    else (if Contains(Fold(low, fields[0]), term) then 1 else 0) + TermHits(low, term, fields[1..])
  }

  function Score(low: Folding, terms: seq<string>, fields: seq<string>): nat {
    if terms == [] then 0
    else TermHits(low, terms[0], fields) + Score(low, terms[1..], fields)
  }

  function Title(jobId: string, data: Sidecar): string {
    if data.errorType != "" && data.serviceName != "" then data.errorType + " in " + data.serviceName
    else if data.summary != "" then data.summary[..if |data.summary| < 80 then |data.summary| else 80]
    else jobId
  }

  function Describe(query: Query, jobId: string, data: Sidecar): Hit {
    Hit(Score(query.low, query.terms, Haystack(query, jobId, data)),
        if data.traceId != "" then data.traceId else jobId,
        Title(jobId, data),
        if data.fixPlan != "" then data.fixPlan else data.summary)
  }

  /** The hit a file contributes, if it parses and scores. */
  function HitOf(query: Query, file: StoredFile): Option<Hit> {
    if file.content.None? then None
    else
      var hit := Describe(query, file.jobId, file.content.value);
      if hit.score == 0 then None else Some(hit)
  }

  // ------------------------------------------------------------ specification

  /** The hits of the corpus, in file order. */
  function Hits(query: Query, corpus: seq<StoredFile>): seq<Hit> {
    if corpus == [] then []
    else
      var hit := HitOf(query, corpus[|corpus| - 1]);
      Hits(query, corpus[..|corpus| - 1]) + if hit.Some? then [hit.value] else []
  }

  /** Higher score first, then lower id. */
  function Ranks(): (Hit, Hit) -> bool {
    (a: Hit, b: Hit) => a.score > b.score || (a.score == b.score && StringLe(a.id, b.id))
  }

  function Ranked(query: Query, corpus: seq<StoredFile>): seq<Hit> {
    Sorting.Sort(Ranks(), Hits(query, corpus))
  }

  function Best(query: Query, corpus: seq<StoredFile>, limit: int): seq<Hit> {
    var ranked := Ranked(query, corpus);
    if Clamp(limit) < |ranked| then ranked[..Clamp(limit)] else ranked
  }

  function Shown(hit: Hit): Summary {
    Summary(hit.id, hit.title, hit.resolution)
  }

  function Summaries(hits: seq<Hit>): seq<Summary> {
    seq(|hits|, i requires 0 <= i < |hits| => Shown(hits[i]))
  }

  // ---------------------------------------------------------------- algorithm

  /** A query as the loop has it. */
  function Prepared(low: Folding, incoming: map<string, Incoming>, q: string): Query {
    Query(low, incoming, Words(Fold(low, q)))
  }

  method SearchIncidents(low: Folding, corpus: seq<StoredFile>, incoming: map<string, Incoming>,
                         q: string, limit: int)
    returns (found: seq<Summary>)
    ensures found == Summaries(Best(Prepared(low, incoming, q), corpus, limit))
    ensures IsAnswer(low, corpus, incoming, q, limit, found)
  {
    var clamped := Clamp(limit);
    var query := Prepared(low, incoming, q);
    var scored: seq<Hit> := [];
    var i := 0;
    while i < |corpus|
      invariant 0 <= i <= |corpus|
      invariant scored == Hits(query, corpus[..i])
    {
      assert corpus[..i + 1][..i] == corpus[..i];
      var file := corpus[i];
      i := i + 1;
      if file.content.Some? {
        var hit := Describe(query, file.jobId, file.content.value);
        if hit.score > 0 {
          scored := scored + [hit];
        }
      }
    }
    assert corpus[..i] == corpus;
    scored := Sorting.Sort(Ranks(), scored);
    var taken := if clamped < |scored| then scored[..clamped] else scored;
    found := Summaries(taken);
    BestIsAnswer(low, corpus, incoming, q, limit);
  }

  // ---------------------------------------------------------- what a match is

  /** A word of a text: a maximal run of characters that are not blank. */
  ghost predicate WordAt(s: string, i: int, j: int) {
    && 0 <= i < j <= |s|
    && (forall k | i <= k < j :: !IsSpace(s[k]))
    && (i == 0 || IsSpace(s[i - 1])) && (j == |s| || IsSpace(s[j]))
  }

  lemma {:induction false} WordLengthIs(s: string)
    ensures var n := WordLength(s);
            (forall k | 0 <= k < n :: !IsSpace(s[k])) && (n == |s| || IsSpace(s[n]))
  {
    if s != "" && !IsSpace(s[0]) {
      WordLengthIs(s[1..]);
    }
  }

  /** Splitting gives the first word and then the words of the rest. */
  lemma {:induction false} WordsOf(pad: string, word: string, rest: string)
    requires AllSpace(pad) && word != "" && (forall k | 0 <= k < |word| :: !IsSpace(word[k]))
    requires rest == "" || IsSpace(rest[0])
    ensures Words(pad + word + rest) == [word] + Words(rest)
    ensures Words(pad) == []
    decreases |pad|
  {
    var s := pad + word + rest;
    if pad == "" {
      assert s == word + rest;
      WordLengthIs(s);
      assert forall k | 0 <= k < |word| :: s[k] == word[k];
      assert rest != "" ==> s[|word|] == rest[0];
      assert WordLength(s) == |word|;
      assert s[..|word|] == word && s[|word|..] == rest;
    } else {
      assert s[0] == pad[0] && s[1..] == pad[1..] + word + rest;
      WordsOf(pad[1..], word, rest);
    }
  }

  /** So its words are the text's words. */
  lemma {:induction false} WordsAreRuns(s: string, w: string)
    ensures w in Words(s) <==> exists i, j :: WordAt(s, i, j) && s[i..j] == w
    decreases |s|
  {
    if s == "" {
    } else if IsSpace(s[0]) {
      WordsAreRuns(s[1..], w);
      ShiftWords(s, w);
    } else {
      var n := WordLength(s);
      WordLengthIs(s);
      WordsAreRuns(s[n..], w);
      FirstWord(s, n, w);
    }
  }

  /** A word of what follows is a word, if it does not start there or a blank is before. */
  lemma LaterWord(s: string, n: nat, i: int, j: int)
    requires n <= |s|
    ensures WordAt(s[n..], i, j) && (i > 0 || (n > 0 && IsSpace(s[n - 1]))) ==>
              WordAt(s, i + n, j + n) && s[i + n..j + n] == s[n..][i..j]
    ensures WordAt(s, i, j) && i >= n ==> WordAt(s[n..], i - n, j - n) && s[n..][i - n..j - n] == s[i..j]
  {
    var t := s[n..];
    assert forall k | 0 <= k < |t| :: t[k] == s[k + n];
    if WordAt(t, i, j) && (i > 0 || (n > 0 && IsSpace(s[n - 1]))) {
      assert forall k | i + n <= k < j + n :: s[k] == t[k - n];
    }
  }

  /** Words after blanks are words of what follows them. */
  lemma ShiftWords(s: string, w: string)
    requires s != "" && IsSpace(s[0])
    ensures (exists i, j :: WordAt(s[1..], i, j) && s[1..][i..j] == w)
       <==> (exists i, j :: WordAt(s, i, j) && s[i..j] == w)
  {
    if i, j :| WordAt(s[1..], i, j) && s[1..][i..j] == w {
      LaterWord(s, 1, i, j);
    }
    if i, j :| WordAt(s, i, j) && s[i..j] == w {
      assert !IsSpace(s[i]);
      LaterWord(s, 1, i, j);
    }
  }

  lemma FirstWord(s: string, n: nat, w: string)
    requires 0 < n <= |s| && (forall k | 0 <= k < n :: !IsSpace(s[k])) && (n == |s| || IsSpace(s[n]))
    ensures (w == s[..n] || exists i, j :: WordAt(s[n..], i, j) && s[n..][i..j] == w)
       <==> (exists i, j :: WordAt(s, i, j) && s[i..j] == w)
  {
    if i, j :| WordAt(s[n..], i, j) && s[n..][i..j] == w {
      assert !IsSpace(s[n..][i]) && s[n..][0] == s[n];
      LaterWord(s, n, i, j);
    }
    if w == s[..n] {
      assert WordAt(s, 0, n) && s[0..n] == w;
    }
    if i, j :| WordAt(s, i, j) && s[i..j] == w {
      LaterWord(s, n, i, j);
      StartsOrFollows(s, n, i, j);
    }
  }

  lemma StartsOrFollows(s: string, n: nat, i: int, j: int)
    requires 0 < n <= |s| && (forall k | 0 <= k < n :: !IsSpace(s[k])) && (n == |s| || IsSpace(s[n]))
    requires WordAt(s, i, j)
    ensures i >= n || (i == 0 && j == n)
  {
  }

  /** The pairs of a term and a field that holds it, whatever the letter case. */
  function Pairs(low: Folding, terms: seq<string>, fields: seq<string>): set<(nat, nat)> {
    set i: nat, j: nat | i < |terms| && j < |fields| && Contains(Fold(low, fields[j]), terms[i]) :: (i, j)
  }

  /** The fields looked at, one by one. */
  ghost predicate IsField(incoming: map<string, Incoming>, jobId: string, data: Sidecar, text: string) {
    || text == data.errorType || text == data.serviceName || text == data.summary || text == data.fixPlan
    || (jobId in incoming && (text == incoming[jobId].message || text == incoming[jobId].stackTrace))
  }

  lemma {:induction false} TermHitsOfLast(low: Folding, term: string, fields: seq<string>)
    requires fields != []
    ensures TermHits(low, term, fields)
         == TermHits(low, term, fields[..|fields| - 1])
            + if Contains(Fold(low, fields[|fields| - 1]), term) then 1 else 0
  {
    if |fields| > 1 {
      var init := fields[..|fields| - 1];
      TermHitsOfLast(low, term, fields[1..]);
      assert fields[1..][..|fields| - 2] == init[1..];
    }
  }

  lemma {:induction false} ScoreOfLast(low: Folding, terms: seq<string>, fields: seq<string>)
    requires terms != []
    ensures Score(low, terms, fields)
         == Score(low, terms[..|terms| - 1], fields) + TermHits(low, terms[|terms| - 1], fields)
  {
    if |terms| > 1 {
      var init := terms[..|terms| - 1];
      ScoreOfLast(low, terms[1..], fields);
      assert terms[1..][..|terms| - 2] == init[1..];
    }
  }

  /** The pairs of one term and one of the first `n` fields. */
  function Row(low: Folding, term: string, i: nat, fields: seq<string>, n: nat): set<(nat, nat)>
    requires n <= |fields|
  {
    set j: nat | j < n && Contains(Fold(low, fields[j]), term) :: (i, j)
  }

  lemma {:induction false} RowCounts(low: Folding, term: string, i: nat, fields: seq<string>, n: nat)
    requires n <= |fields|
    ensures |Row(low, term, i, fields, n)| == TermHits(low, term, fields[..n])
  {
    if n == 0 {
      assert Row(low, term, i, fields, n) == {};
    } else {
      var init := fields[..n][..n - 1];
      RowCounts(low, term, i, fields, n - 1);
      TermHitsOfLast(low, term, fields[..n]);
      assert init == fields[..n - 1];
      OneMoreField(low, term, i, fields, n);
    }
  }

  lemma OneMoreField(low: Folding, term: string, i: nat, fields: seq<string>, n: nat)
    requires 0 < n <= |fields|
    ensures |Row(low, term, i, fields, n)|
         == |Row(low, term, i, fields, n - 1)| + if Contains(Fold(low, fields[n - 1]), term) then 1 else 0
  {
    var before, now := Row(low, term, i, fields, n - 1), Row(low, term, i, fields, n);
    if Contains(Fold(low, fields[n - 1]), term) {
      assert now == before + {(i, n - 1)};
    } else {
      assert now == before;
    }
  }

  /** The score is the number of pairs. */
  lemma {:induction false} ScoreCounts(low: Folding, terms: seq<string>, fields: seq<string>)
    ensures Score(low, terms, fields) == |Pairs(low, terms, fields)|
  {
    if terms == [] {
      assert Pairs(low, terms, fields) == {};
    } else {
      var n := |terms| - 1;
      var init := terms[..n];
      ScoreCounts(low, init, fields);
      ScoreOfLast(low, terms, fields);
      RowCounts(low, terms[n], n, fields, |fields|);
      assert fields[..|fields|] == fields;
      var row := Row(low, terms[n], n, fields, |fields|);
      assert Pairs(low, terms, fields) == Pairs(low, init, fields) + row;
      assert Pairs(low, init, fields) !! row;
    }
  }

  /** Some term is in one of the file's fields. */
  ghost predicate Holds(query: Query, file: StoredFile) {
    && file.content.Some?
    && exists term, text | term in query.terms && IsField(query.incoming, file.jobId, file.content.value, text) ::
         Contains(Fold(query.low, text), term)
  }

  lemma FieldsAre(query: Query, jobId: string, data: Sidecar, text: string)
    ensures text in Haystack(query, jobId, data) <==> IsField(query.incoming, jobId, data, text)
  {
    var fields := Haystack(query, jobId, data);
    assert fields[0] == data.errorType && fields[1] == data.serviceName;
    assert fields[2] == data.summary && fields[3] == data.fixPlan;
    if jobId in query.incoming {
      assert fields[4] == query.incoming[jobId].message && fields[5] == query.incoming[jobId].stackTrace;
    }
  }

  /** Some pair exists exactly if some field holds a term. */
  lemma PairsIff(query: Query, file: StoredFile)
    requires file.content.Some?
    ensures Pairs(query.low, query.terms, Haystack(query, file.jobId, file.content.value)) != {}
       <==> Holds(query, file)
  {
    var data := file.content.value;
    var fields := Haystack(query, file.jobId, data);
    var pairs := Pairs(query.low, query.terms, fields);
    if pairs != {} {
      var p :| p in pairs;
      var term, text := query.terms[p.0], fields[p.1];
      FieldsAre(query, file.jobId, data, text);
      assert term in query.terms && text in fields;
    }
    if Holds(query, file) {
      var term, text :| term in query.terms && IsField(query.incoming, file.jobId, data, text)
                        && Contains(Fold(query.low, text), term);
      FieldsAre(query, file.jobId, data, text);
      var i: nat :| i < |query.terms| && query.terms[i] == term;
      var j: nat :| j < |fields| && fields[j] == text;
      assert (i, j) in pairs;
    }
  }

  /** A file gives a hit exactly if it parses and one of its fields holds a term; the hit's
      score is the number of such pairs. */
  lemma HitIff(query: Query, file: StoredFile)
    ensures HitOf(query, file).Some? <==> Holds(query, file)
    ensures HitOf(query, file).Some? ==>
              var data := file.content.value;
              var fields := [data.errorType, data.serviceName, data.summary, data.fixPlan]
                            + if file.jobId in query.incoming
                              then [query.incoming[file.jobId].message, query.incoming[file.jobId].stackTrace]
                              else [];
              HitOf(query, file).value.score == |Pairs(query.low, query.terms, fields)|
  {
    if file.content.Some? {
      ScoreCounts(query.low, query.terms, Haystack(query, file.jobId, file.content.value));
      PairsIff(query, file);
    }
  }

  /** Some word of the query is in one of the file's fields. */
  ghost predicate Mentions(low: Folding, incoming: map<string, Incoming>, q: string, file: StoredFile) {
    && file.content.Some?
    && exists i, j, text | WordAt(Fold(low, q), i, j) && IsField(incoming, file.jobId, file.content.value, text) ::
         Contains(Fold(low, text), Fold(low, q)[i..j])
  }

  lemma MentionsIff(low: Folding, incoming: map<string, Incoming>, q: string, file: StoredFile)
    ensures Mentions(low, incoming, q, file) <==> Holds(Prepared(low, incoming, q), file)
  {
    var query := Prepared(low, incoming, q);
    var s := Fold(low, q);
    if Mentions(low, incoming, q, file) {
      var i, j, text :| WordAt(s, i, j) && IsField(incoming, file.jobId, file.content.value, text)
                        && Contains(Fold(low, text), s[i..j]);
      WordsAreRuns(s, s[i..j]);
      assert s[i..j] in query.terms;
    }
    if Holds(query, file) {
      var term, text :| term in query.terms && IsField(incoming, file.jobId, file.content.value, text)
                        && Contains(Fold(low, text), term);
      WordsAreRuns(s, term);
      var i, j :| WordAt(s, i, j) && s[i..j] == term;
    }
  }

  /** What is shown of a file. */
  ghost predicate Shows(file: StoredFile, x: Summary) {
    && file.content.Some?
    && var data := file.content.value;
       && x.id == (if data.traceId == "" then file.jobId else data.traceId)
       && x.resolution == (if data.fixPlan == "" then data.summary else data.fixPlan)
       && (data.errorType != "" && data.serviceName != "" ==> x.title == data.errorType + " in " + data.serviceName)
       && (data.errorType == "" || data.serviceName == "" ==>
             if data.summary == "" then x.title == file.jobId
             else x.title <= data.summary && |x.title| <= 80 && (|x.title| < 80 ==> x.title == data.summary))
  }

  /** The files of the corpus that mention a word of the query, by their place. */
  ghost function Mentioning(low: Folding, corpus: seq<StoredFile>, incoming: map<string, Incoming>, q: string)
    : nat -> bool
  {
    (k: nat) => k < |corpus| && Mentions(low, incoming, q, corpus[k])
  }

  /** Those of the first `n` places. */
  function Places(holds: nat -> bool, n: nat): set<nat> {
    set k: nat | k < n && holds(k)
  }

  lemma OneMorePlace(holds: nat -> bool, n: nat)
    ensures |Places(holds, n + 1)| == |Places(holds, n)| + if holds(n) then 1 else 0
  {
    var more: set<nat> := if holds(n) then {n} else {};
    assert Places(holds, n + 1) == Places(holds, n) + more;
  }

  /** Only files that mention a word of the query are shown. */
  ghost predicate ShowsOnlyThese(low: Folding, corpus: seq<StoredFile>, incoming: map<string, Incoming>, q: string,
                                 found: seq<Summary>)
  {
    forall x | x in found ::
      exists file :: file in corpus && Mentions(low, incoming, q, file) && Shows(file, x)
  }

  ghost predicate ShowsAllThese(low: Folding, corpus: seq<StoredFile>, incoming: map<string, Incoming>, q: string,
                                found: seq<Summary>)
  {
    forall file | file in corpus && Mentions(low, incoming, q, file) ::
      exists x :: x in found && Shows(file, x)
  }

  /** The right answer to a query: only files that mention one of its words are shown, as
      many as there are or as the limit allows, and all of them if that is not reached. */
  ghost predicate IsAnswer(low: Folding, corpus: seq<StoredFile>, incoming: map<string, Incoming>, q: string,
                           limit: int, found: seq<Summary>)
  {
    var matching := |Places(Mentioning(low, corpus, incoming, q), |corpus|)|;
    && |found| == (if matching < Clamp(limit) then matching else Clamp(limit))
    && ShowsOnlyThese(low, corpus, incoming, q, found)
    && (|found| < Clamp(limit) ==> ShowsAllThese(low, corpus, incoming, q, found))
  }

  lemma {:induction false} HitsAreCounted(low: Folding, corpus: seq<StoredFile>, n: nat,
                                          incoming: map<string, Incoming>, q: string)
    requires n <= |corpus|
    ensures |Hits(Prepared(low, incoming, q), corpus[..n])|
         == |Places(Mentioning(low, corpus, incoming, q), n)|
  {
    if n == 0 {
      assert Places(Mentioning(low, corpus, incoming, q), n) == {};
    } else {
      HitsAreCounted(low, corpus, n - 1, incoming, q);
      MentionedIsHit(low, incoming, q, corpus[n - 1]);
      OneMorePlace(Mentioning(low, corpus, incoming, q), n - 1);
      assert corpus[..n][..n - 1] == corpus[..n - 1];
    }
  }

  /** A file is a hit exactly if it mentions a word, and then that is what is shown. */
  lemma MentionedIsHit(low: Folding, incoming: map<string, Incoming>, q: string, file: StoredFile)
    ensures var hit := HitOf(Prepared(low, incoming, q), file);
            && (Mentions(low, incoming, q, file) <==> hit.Some?)
            && (hit.Some? ==> Shows(file, Shown(hit.value)))
  {
    MentionsIff(low, incoming, q, file);
    HitIff(Prepared(low, incoming, q), file);
  }

  lemma OnlyThese(low: Folding, corpus: seq<StoredFile>, incoming: map<string, Incoming>, q: string, limit: int)
    ensures ShowsOnlyThese(low, corpus, incoming, q, Summaries(Best(Prepared(low, incoming, q), corpus, limit)))
  {
    var query := Prepared(low, incoming, q);
    var best := Best(query, corpus, limit);
    BestAreMatches(query, corpus, limit);
    forall x | x in Summaries(best)
      ensures exists file :: file in corpus && Mentions(low, incoming, q, file) && Shows(file, x)
    {
      var i :| 0 <= i < |best| && x == Summaries(best)[i];
      assert best[i] in best;
      var file :| file in corpus && HitOf(query, file) == Some(best[i]);
      MentionedIsHit(low, incoming, q, file);
    }
  }

  lemma AllThese(low: Folding, corpus: seq<StoredFile>, incoming: map<string, Incoming>, q: string, limit: int)
    requires |Hits(Prepared(low, incoming, q), corpus)| <= Clamp(limit)
    ensures ShowsAllThese(low, corpus, incoming, q, Summaries(Best(Prepared(low, incoming, q), corpus, limit)))
  {
    var query := Prepared(low, incoming, q);
    var best := Best(query, corpus, limit);
    RankedHasAll(query, corpus);
    forall file | file in corpus && Mentions(low, incoming, q, file)
      ensures exists x :: x in Summaries(best) && Shows(file, x)
    {
      MentionedIsHit(low, incoming, q, file);
      var hit := HitOf(query, file).value;
      HitsAreMatches(query, corpus, hit);
      assert hit in best;
      var i :| 0 <= i < |best| && best[i] == hit;
      assert Summaries(best)[i] == Shown(hit);
    }
  }

  lemma RankedHasAll(query: Query, corpus: seq<StoredFile>)
    ensures |Ranked(query, corpus)| == |Hits(query, corpus)|
    ensures forall hit :: hit in Ranked(query, corpus) <==> hit in Hits(query, corpus)
  {
    forall hit: Hit
      ensures hit in Ranked(query, corpus) <==> hit in Hits(query, corpus)
    {
      assert hit in multiset(Ranked(query, corpus)) <==> hit in multiset(Hits(query, corpus));
    }
  }

  lemma BestIsAnswer(low: Folding, corpus: seq<StoredFile>, incoming: map<string, Incoming>, q: string, limit: int)
    ensures IsAnswer(low, corpus, incoming, q, limit, Summaries(Best(Prepared(low, incoming, q), corpus, limit)))
  {
    var query := Prepared(low, incoming, q);
    HitsAreCounted(low, corpus, |corpus|, incoming, q);
    assert corpus[..|corpus|] == corpus;
    RankedHasAll(query, corpus);
    OnlyThese(low, corpus, incoming, q, limit);
    if |Hits(query, corpus)| < Clamp(limit) {
      AllThese(low, corpus, incoming, q, limit);
    }
  }

  // ------------------------------------------------------------------ ranking

  lemma RanksIsTotal()
    ensures Sorting.TotalPreorder(Ranks())
  {
    forall a: Hit, b: Hit
      ensures Ranks()(a, b) || Ranks()(b, a)
    {
      StringLeTotal(a.id, b.id);
    }
    forall a: Hit, b: Hit, c: Hit | Ranks()(a, b) && Ranks()(b, c)
      ensures Ranks()(a, c)
    {
      if a.score == b.score == c.score {
        StringLeTransitive(a.id, b.id, c.id);
      }
    }
  }

  lemma {:induction false} HitsAreMatches(query: Query, corpus: seq<StoredFile>, hit: Hit)
    ensures hit in Hits(query, corpus) <==> exists file | file in corpus :: HitOf(query, file) == Some(hit)
  {
    if corpus != [] {
      var before, last := corpus[..|corpus| - 1], corpus[|corpus| - 1];
      HitsAreMatches(query, before, hit);
      assert corpus == before + [last];
      if file :| file in corpus && HitOf(query, file) == Some(hit) {
        assert file in before || file == last;
      }
      if hit in Hits(query, before) {
        var file :| file in before && HitOf(query, file) == Some(hit);
        assert file in corpus;
      }
    }
  }

  /** The answer is the first clamp(limit) of the ranked matches, and the ranked matches
      are the matches, each as often as there are files that give it. */
  lemma BestAreMatches(query: Query, corpus: seq<StoredFile>, limit: int)
    ensures var best := Best(query, corpus, limit);
            var ranked := Ranked(query, corpus);
            && best <= ranked
            && |best| == (if Clamp(limit) < |ranked| then Clamp(limit) else |ranked|)
            && multiset(best) + multiset(ranked[|best|..]) == multiset(Hits(query, corpus))
            && (forall x | x in best :: exists file | file in corpus :: HitOf(query, file) == Some(x))
  {
    var best, ranked := Best(query, corpus, limit), Ranked(query, corpus);
    assert ranked == best + ranked[|best|..];
    forall x | x in best
      ensures exists file | file in corpus :: HitOf(query, file) == Some(x)
    {
      assert x in multiset(ranked);
      HitsAreMatches(query, corpus, x);
    }
  }

  /** More pairs come first, and of as many the smaller id. */
  ghost predicate ComesBefore(x: Hit, y: Hit) {
    x.score > y.score || (x.score == y.score && Precedes(x.id, y.id))
  }

  lemma RanksIff(x: Hit, y: Hit)
    ensures Ranks()(x, y) <==> ComesBefore(x, y)
    ensures Sorting.Tied(Ranks(), x, y) <==> x.score == y.score && x.id == y.id
  {
    StringLeIff(x.id, y.id);
    StringLeTotal(x.id, y.id);
  }

  /** Best first; and no match left out ranks before one returned. */
  lemma BestOutranksTheRest(query: Query, corpus: seq<StoredFile>, limit: int)
    ensures var best := Best(query, corpus, limit);
            var omitted := Ranked(query, corpus)[|best|..];
            && (forall i, j | 0 <= i < j < |best| :: ComesBefore(best[i], best[j]))
            && (forall x, y | x in best && y in omitted :: ComesBefore(x, y))
  {
    RanksIsTotal();
    var best, ranked := Best(query, corpus, limit), Ranked(query, corpus);
    Sorting.SortOrdered(Ranks(), Hits(query, corpus));
    assert best == ranked[..|best|];
    forall i, j | 0 <= i < j < |best|
      ensures ComesBefore(best[i], best[j])
    {
      assert Ranks()(ranked[i], ranked[j]);
      RanksIff(best[i], best[j]);
    }
    forall x, y | x in best && y in ranked[|best|..]
      ensures ComesBefore(x, y)
    {
      FrontOutranksBack(ranked, |best|, x, y);
      RanksIff(x, y);
    }
  }

  lemma FrontOutranksBack(ranked: seq<Hit>, n: nat, x: Hit, y: Hit)
    requires Sorting.Ordered(Ranks(), ranked) && n <= |ranked| && x in ranked[..n] && y in ranked[n..]
    ensures Ranks()(x, y)
  {
    var i :| 0 <= i < n && ranked[..n][i] == x;
    var j :| 0 <= j < |ranked| - n && ranked[n..][j] == y;
    assert ranked[i] == x && ranked[n + j] == y;
  }

  /** Matches with the same score and the same id stay in file order. */
  lemma TiesKeepFileOrder(query: Query, corpus: seq<StoredFile>, hit: Hit)
    ensures Sorting.Ties(Ranks(), hit, Ranked(query, corpus)) == Sorting.Ties(Ranks(), hit, Hits(query, corpus))
    ensures forall x :: Sorting.Tied(Ranks(), hit, x) <==> x.score == hit.score && x.id == hit.id
  {
    forall x
      ensures Sorting.Tied(Ranks(), hit, x) <==> x.score == hit.score && x.id == hit.id
    {
      RanksIff(hit, x);
    }
    RanksIsTotal();
    Sorting.SortStable(Ranks(), hit, Hits(query, corpus));
  }

  /** A smaller limit gives a prefix of what a larger one gives. */
  lemma SmallerLimitIsPrefix(query: Query, corpus: seq<StoredFile>, limit: int, more: int)
    requires limit <= more
    ensures Summaries(Best(query, corpus, limit)) <= Summaries(Best(query, corpus, more))
  {
  }

  // --------------------------------------------------------------- file order

  function Bag(hit: Option<Hit>): multiset<Hit> {
    if hit.Some? then multiset{hit.value} else multiset{}
  }

  lemma HitsOfLast(query: Query, corpus: seq<StoredFile>)
    requires corpus != []
    ensures multiset(Hits(query, corpus))
         == multiset(Hits(query, corpus[..|corpus| - 1])) + Bag(HitOf(query, corpus[|corpus| - 1]))
  {
  }

  lemma {:induction false} HitsRemove(query: Query, corpus: seq<StoredFile>, j: nat)
    requires j < |corpus|
    ensures multiset(Hits(query, corpus))
         == multiset(Hits(query, corpus[..j] + corpus[j + 1..])) + Bag(HitOf(query, corpus[j]))
  {
    var before := corpus[..|corpus| - 1];
    var rest := corpus[..j] + corpus[j + 1..];
    if j == |before| {
      assert rest == before;
      HitsOfLast(query, corpus);
    } else {
      HitsRemove(query, before, j);
      DropThenInit(corpus, j);
      HitsOfLast(query, rest);
      HitsOfLast(query, corpus);
    }
  }

  lemma {:induction false} HitsIgnoreOrder(query: Query, x: seq<StoredFile>, y: seq<StoredFile>)
    requires multiset(x) == multiset(y)
    ensures multiset(Hits(query, x)) == multiset(Hits(query, y))
    decreases |x|
  {
    assert |multiset(x)| == |x| && |multiset(y)| == |y|;
    if x != [] {
      var last := |x| - 1;
      assert x[last] in multiset(y);
      var j :| 0 <= j < |y| && y[j] == x[last];
      SameWithout(x, y, j);
      HitsIgnoreOrder(query, x[..last], y[..j] + y[j + 1..]);
      HitsRemove(query, y, j);
      HitsRemove(query, x, last);
      assert x[..last] + x[last + 1..] == x[..last];
    }
  }

  ghost predicate DistinctIds(hits: seq<Hit>) {
    forall a, b | a in hits && b in hits && a.id == b.id :: a == b
  }

  /** When the matches have distinct ids, the order of the files does not matter. */
  lemma FileOrderIsMoot(query: Query, x: seq<StoredFile>, y: seq<StoredFile>, limit: int)
    requires multiset(x) == multiset(y) && DistinctIds(Hits(query, x))
    ensures Best(query, x, limit) == Best(query, y, limit)
  {
    RanksIsTotal();
    HitsIgnoreOrder(query, x, y);
    var hits := Hits(query, x);
    forall a, b | a in hits && b in hits && Ranks()(a, b) && Ranks()(b, a)
      ensures a == b
    {
      StringLeTotal(a.id, b.id);
    }
    Sorting.SortIgnoresOrder(Ranks(), hits, Hits(query, y));
  }
}
