/** The security reviewer: a fail-safe verdict and a deterministic keyword scan that
    the normalisation of the artifact cannot evade or trigger. */
module Reviewer {
  import opened Prelude
  import opened Text
  import opened Json
  import Normalizer

  datatype Verdict = Safe | Caution | HighRisk

  const HIGH_RISK_KEYWORDS: seq<string> := [
    "DROP TABLE", "DROP DATABASE", "TRUNCATE TABLE",
    "rm -rf /", "rm -rf ~", "chmod 777", "mkfs", "dd if="
  ]

  const SECRET_CREDENTIAL_KEYWORDS: seq<string> := [
    "secret_key", "secret key", "aws_secret", "api_key", "apikey",
    "private_key", "credential", "password", "passwd",
    "bcrypt", "scrypt", "argon2", "hashpw", "gensalt", "pbkdf2"
  ]

  function VerdictNamed(name: string): Option<Verdict> {
    if name == "SAFE" then Some(Safe)
    else if name == "CAUTION" then Some(Caution)
    else if name == "HIGH_RISK" then Some(HighRisk)
    else None
  }

  /** A reply that is not an object with a known verdict counts as CAUTION. */
  function ParseVerdict(reply: JsonDoc): Verdict {
    match reply.Field("verdict")
    case Some(JString(name)) => VerdictNamed(name).GetOr(Caution)
    case _ => Caution
  }

  predicate AnyKeyword(keywords: seq<string>, text: string) {
    exists j | 0 <= j < |keywords| :: Contains(text, keywords[j])
  }

  /** Destructive operations as written, secret handling in any letter case. */
  predicate ScanFires(low: Folding, artifact: string) {
    AnyKeyword(HIGH_RISK_KEYWORDS, artifact)
    || AnyKeyword(SECRET_CREDENTIAL_KEYWORDS, Fold(low, artifact))
  }

  function FinalVerdict(low: Folding, artifact: string, modelVerdict: Verdict): Verdict {
    if ScanFires(low, artifact) then HighRisk else modelVerdict
  }

  // -------------------------------------------------------- what it fires on

  /** A destructive operation, as written. */
  ghost predicate Destroys(text: string) {
    || Contains(text, "DROP TABLE") || Contains(text, "DROP DATABASE") || Contains(text, "TRUNCATE TABLE")
    || Contains(text, "rm -rf /") || Contains(text, "rm -rf ~") || Contains(text, "chmod 777")
    || Contains(text, "mkfs") || Contains(text, "dd if=")
  }

  /** A secret or a credential, in a text already folded. */
  ghost predicate NamesSecret(text: string) {
    || Contains(text, "secret_key") || Contains(text, "secret key") || Contains(text, "aws_secret")
    || Contains(text, "api_key") || Contains(text, "apikey") || Contains(text, "private_key")
    || Contains(text, "credential") || Contains(text, "password") || Contains(text, "passwd")
    || Contains(text, "bcrypt") || Contains(text, "scrypt") || Contains(text, "argon2")
    || Contains(text, "hashpw") || Contains(text, "gensalt") || Contains(text, "pbkdf2")
  }

  lemma DestroysIff(text: string)
    ensures AnyKeyword(HIGH_RISK_KEYWORDS, text) <==> Destroys(text)
  {
    var k := HIGH_RISK_KEYWORDS;
    if Destroys(text) {
      assert Contains(text, k[0]) || Contains(text, k[1]) || Contains(text, k[2]) || Contains(text, k[3])
        || Contains(text, k[4]) || Contains(text, k[5]) || Contains(text, k[6]) || Contains(text, k[7]);
    }
  }

  lemma NamesSecretIff(text: string)
    ensures AnyKeyword(SECRET_CREDENTIAL_KEYWORDS, text) <==> NamesSecret(text)
  {
    var k := SECRET_CREDENTIAL_KEYWORDS;
    if NamesSecret(text) {
      assert Contains(text, k[0]) || Contains(text, k[1]) || Contains(text, k[2]) || Contains(text, k[3])
        || Contains(text, k[4]) || Contains(text, k[5]) || Contains(text, k[6]) || Contains(text, k[7])
        || Contains(text, k[8]) || Contains(text, k[9]) || Contains(text, k[10]) || Contains(text, k[11])
        || Contains(text, k[12]) || Contains(text, k[13]) || Contains(text, k[14]);
    }
  }

  /** The scan fires exactly on a destructive operation or, in any letter case, a secret. */
  lemma FiresIff(low: Folding, artifact: string)
    ensures ScanFires(low, artifact) <==> Destroys(artifact) || NamesSecret(Fold(low, artifact))
  {
    DestroysIff(artifact);
    NamesSecretIff(Fold(low, artifact));
  }

  // ------------------------------------------- the scan under normalisation

  /** What every keyword has in common. */
  predicate WellFormedKeyword(k: string) {
    k != "" && k[0] != ' ' && forall i | 0 <= i < |k| :: !IsBreak(k[i])
  }

  lemma MarginIsNeutral(line: string, k: string)
    requires WellFormedKeyword(k)
    ensures Contains(MARGIN + line, k) <==> Contains(line, k)
  {
    var one, two, three := " " + line, " " + (" " + line), " " + (" " + (" " + line));
    ContainsAfter(' ', line, k);
    ContainsAfter(' ', one, k);
    ContainsAfter(' ', two, k);
    ContainsAfter(' ', three, k);
    assert MARGIN + line == " " + three;
  }

  /** Folding keeps a line break at the end of a line. */
  lemma FoldKeepsBreak(low: Folding, line: string)
    requires FoldsLikeLower(low) && line != "" && IsBreak(line[|line| - 1])
    ensures Fold(low, line) != "" && IsBreak(Fold(low, line)[|Fold(low, line)| - 1])
  {
    var body, last := line[..|line| - 1], [line[|line| - 1]];
    assert line == body + last;
    FoldConcat(low, body, last);
    FoldFixed(low, last);
  }

  lemma FoldMargin(low: Folding, line: string)
    requires FoldsLikeLower(low)
    ensures Fold(low, MARGIN + line) == MARGIN + Fold(low, line)
  {
    FoldConcat(low, MARGIN, line);
    FoldFixed(low, MARGIN);
  }

  /** A line as Indent writes it. */
  function Shown(line: string): string {
    if Trim(line) != "" then MARGIN + line else line
  }

  lemma ShownKeepsKeyword(low: Folding, line: string, k: string)
    requires FoldsLikeLower(low) && WellFormedKeyword(k)
    ensures Contains(Fold(low, Shown(line)), k) <==> Contains(Fold(low, line), k)
  {
    FoldMargin(low, line);
    MarginIsNeutral(Fold(low, line), k);
  }

  /** A terminated line shares no occurrence of a keyword with what follows it. */
  lemma KeywordStaysInLine(low: Folding, line: string, rest: string, k: string)
    requires FoldsLikeLower(low) && WellFormedKeyword(k)
    requires line != "" && (rest == "" || IsBreak(line[|line| - 1]))
    ensures Contains(Fold(low, line + rest), k)
       <==> Contains(Fold(low, line), k) || Contains(Fold(low, rest), k)
  {
    FoldConcat(low, line, rest);
    if rest == "" {
      assert line + rest == line;
    } else {
      FoldKeepsBreak(low, line);
      ContainsAcross(Fold(low, line), Fold(low, rest), k);
    }
  }

  /** Indentation neither hides a keyword nor makes one. */
  lemma {:induction false} IndentKeepsKeyword(low: Folding, s: string, k: string)
    requires FoldsLikeLower(low) && WellFormedKeyword(k)
    ensures Contains(Fold(low, Indent(s)), k) <==> Contains(Fold(low, s), k)
    decreases |s|
  {
    if s != "" {
      var n := LineLength(s);
      var line, rest := s[..n], s[n..];
      assert s == line + rest;
      assert Indent(s) == Shown(line) + Indent(rest);
      calc {
        Contains(Fold(low, Shown(line) + Indent(rest)), k);
      <==> { KeywordStaysInLine(low, Shown(line), Indent(rest), k); }
        Contains(Fold(low, Shown(line)), k) || Contains(Fold(low, Indent(rest)), k);
      <==> { ShownKeepsKeyword(low, line, k); IndentKeepsKeyword(low, rest, k); }
        Contains(Fold(low, line), k) || Contains(Fold(low, rest), k);
      <==> { KeywordStaysInLine(low, line, rest, k); }
        Contains(Fold(low, line + rest), k);
      }
    }
  }

  // ------------------------------------------------- the wrapper's own text

  ghost predicate WrapperIsClean(k: string) {
    && !Contains(Normalizer.WRAPPER_HEAD, k)
    && !Contains(Normalizer.CALL_LINE, k)
    && !Contains(Normalizer.GUARD_LINE, k)
    && !Contains(Normalizer.LOOP_LINE, k)
    && !Contains(Normalizer.DRAIN_LINE, k)
  }

  /** One character the keyword has and a fixed line has not settles that line. */
  lemma Lack(line: string, k: string, c: char)
    requires c in k && c !in line
    ensures !Contains(line, k)
  {
    var j :| 0 <= j < |k| && k[j] == c;
    LacksCharLacksKeyword(line, k, j);
  }

  lemma OpeningLinesLack(c: char)
    requires c in {'D', 'T', 'm', 'k', 'c', 'b', 'g', 'w'}
    ensures c !in Normalizer.WRAPPER_HEAD && c !in Normalizer.CALL_LINE
  {
  }

  lemma GuardSendLacks(c: char)
    requires c in {'D', 'T', 'm', 'k', 'c', 'b', 'g', 'p', '='}
    ensures c !in Normalizer.GUARD_SEND
  {
  }

  lemma GuardThrowLacks(c: char)
    requires c in {'D', 'T', 'm', 'k', 'c', 'b', 'g', 'p', '='}
    ensures c !in Normalizer.GUARD_THROW
  {
  }

  lemma GuardLineLacks(c: char)
    requires c in {'D', 'T', 'm', 'k', 'c', 'b', 'g', 'p', '='}
    ensures c !in Normalizer.GUARD_LINE
  {
    GuardSendLacks(c);
    GuardThrowLacks(c);
  }

  lemma ClosingLinesLack(c: char)
    requires c in {'D', 'T', 'm', 'k', 'c', 'b', 'g', 'w'}
    ensures c !in Normalizer.LOOP_LINE && c !in Normalizer.DRAIN_LINE
  {
  }

  /** `c` settles every line but the guard, `d` settles the guard. */
  lemma WrapperLacks(k: string, c: char, d: char)
    requires c in k && c in {'D', 'T', 'm', 'k', 'c', 'b', 'g', 'w'}
    requires d in k && d in {'D', 'T', 'm', 'k', 'c', 'b', 'g', 'p'}
    ensures WrapperIsClean(k)
  {
    OpeningLinesLack(c);
    GuardLineLacks(d);
    ClosingLinesLack(c);
    Lack(Normalizer.WRAPPER_HEAD, k, c);
    Lack(Normalizer.CALL_LINE, k, c);
    Lack(Normalizer.GUARD_LINE, k, d);
    Lack(Normalizer.LOOP_LINE, k, c);
    Lack(Normalizer.DRAIN_LINE, k, c);
  }

  /** Only the call line holds an '=', and it holds no 'd'. */
  lemma WrapperLacksCopy(k: string)
    requires 'd' in k && '=' in k
    ensures WrapperIsClean(k)
  {
    GuardLineLacks('=');
    Lack(Normalizer.WRAPPER_HEAD, k, '=');
    Lack(Normalizer.CALL_LINE, k, 'd');
    Lack(Normalizer.GUARD_LINE, k, '=');
    Lack(Normalizer.LOOP_LINE, k, '=');
    Lack(Normalizer.DRAIN_LINE, k, '=');
  }

  /** Every keyword of the two lists is well formed and foreign to the wrapper. */
  lemma HighRiskKeywordsAreForeign(j: nat)
    requires j < |HIGH_RISK_KEYWORDS|
    ensures WellFormedKeyword(HIGH_RISK_KEYWORDS[j]) && WrapperIsClean(HIGH_RISK_KEYWORDS[j])
  {
    var k := HIGH_RISK_KEYWORDS[j];
    if j <= 1 {
      WrapperLacks(k, 'D', 'D');
    } else if j == 2 {
      WrapperLacks(k, 'T', 'T');
    } else if j <= 6 {
      WrapperLacks(k, 'm', 'm');
    } else {
      WrapperLacksCopy(k);
    }
  }

  lemma SecretKeywordsAreForeign(j: nat)
    requires j < |SECRET_CREDENTIAL_KEYWORDS|
    ensures WellFormedKeyword(SECRET_CREDENTIAL_KEYWORDS[j])
    ensures WrapperIsClean(SECRET_CREDENTIAL_KEYWORDS[j])
  {
    if j <= 6 {
      FirstSecretsAreForeign(j);
    } else {
      LastSecretsAreForeign(j);
    }
  }

  lemma FirstSecretsAreForeign(j: nat)
    requires j <= 6
    ensures WellFormedKeyword(SECRET_CREDENTIAL_KEYWORDS[j])
    ensures WrapperIsClean(SECRET_CREDENTIAL_KEYWORDS[j])
  {
    var k := SECRET_CREDENTIAL_KEYWORDS[j];
    if j == 2 || j == 6 {
      WrapperLacks(k, 'c', 'c');
    } else {
      WrapperLacks(k, 'k', 'k');
    }
  }

  lemma LastSecretsAreForeign(j: nat)
    requires 7 <= j < |SECRET_CREDENTIAL_KEYWORDS|
    ensures WellFormedKeyword(SECRET_CREDENTIAL_KEYWORDS[j])
    ensures WrapperIsClean(SECRET_CREDENTIAL_KEYWORDS[j])
  {
    var k := SECRET_CREDENTIAL_KEYWORDS[j];
    if j == 7 || j == 8 || j == 12 {
      WrapperLacks(k, 'w', 'p');
    } else if j == 9 || j == 14 {
      WrapperLacks(k, 'b', 'b');
    } else if j == 10 {
      WrapperLacks(k, 'c', 'c');
    } else {
      WrapperLacks(k, 'g', 'g');
    }
  }

  // -------------------------------------------------- the scan is invariant

  predicate IsPlain(line: string) {
    forall i | 0 <= i < |line| :: line[i] < '\U{80}' && !('A' <= line[i] <= 'Z')
  }

  lemma OpeningLinesArePlain()
    ensures IsPlain(Normalizer.WRAPPER_HEAD) && IsPlain(Normalizer.CALL_LINE)
  {
  }

  lemma GuardLineIsPlain()
    ensures IsPlain(Normalizer.GUARD_LINE)
  {
    assert IsPlain(Normalizer.GUARD_SEND);
    assert IsPlain(Normalizer.GUARD_THROW);
  }

  lemma ClosingLinesArePlain()
    ensures IsPlain(Normalizer.LOOP_LINE) && IsPlain(Normalizer.DRAIN_LINE)
  {
  }

  ghost const CLOSING: string :=
    Normalizer.CALL_LINE + (Normalizer.GUARD_LINE + (Normalizer.LOOP_LINE + Normalizer.DRAIN_LINE))

  lemma ClosingIsClean(k: string)
    requires WellFormedKeyword(k) && WrapperIsClean(k)
    ensures !Contains(CLOSING, k)
  {
    var tail := Normalizer.LOOP_LINE + Normalizer.DRAIN_LINE;
    assert '\n' !in k;
    ContainsAcross(Normalizer.LOOP_LINE, Normalizer.DRAIN_LINE, k);
    ContainsAcross(Normalizer.GUARD_LINE, tail, k);
    ContainsAcross(Normalizer.CALL_LINE, Normalizer.GUARD_LINE + tail, k);
  }

  lemma PlainConcat(x: string, y: string)
    requires IsPlain(x) && IsPlain(y)
    ensures IsPlain(x + y)
  {
  }

  lemma ClosingIsPlain()
    ensures IsPlain(CLOSING)
  {
    OpeningLinesArePlain();
    GuardLineIsPlain();
    ClosingLinesArePlain();
    var tail := Normalizer.LOOP_LINE + Normalizer.DRAIN_LINE;
    PlainConcat(Normalizer.LOOP_LINE, Normalizer.DRAIN_LINE);
    PlainConcat(Normalizer.GUARD_LINE, tail);
    PlainConcat(Normalizer.CALL_LINE, Normalizer.GUARD_LINE + tail);
  }

  lemma FoldPlain(low: Folding, line: string)
    requires FoldsLikeLower(low) && IsPlain(line)
    ensures Fold(low, line) == line
  {
    FoldFixed(low, line);
  }

  lemma FoldWrap(low: Folding, artifact: string)
    requires FoldsLikeLower(low)
    ensures Fold(low, Normalizer.Wrap(artifact))
         == Normalizer.WRAPPER_HEAD + (Fold(low, Indent(artifact)) + (['\n'] + (['\n'] + CLOSING)))
  {
    ClosingIsPlain();
    PlainConcat("\n\n", CLOSING);
    FoldPlain(low, Normalizer.WRAPPER_TAIL);
    assert Normalizer.WRAPPER_TAIL == ['\n'] + (['\n'] + CLOSING);
    OpeningLinesArePlain();
    FoldPlain(low, Normalizer.WRAPPER_HEAD);
    FoldConcat(low, Indent(artifact), Normalizer.WRAPPER_TAIL);
    FoldConcat(low, Normalizer.WRAPPER_HEAD, Indent(artifact) + Normalizer.WRAPPER_TAIL);
  }

  /** A foreign keyword is in the wrapped text exactly when it is in the artifact. */
  lemma WrapKeepsKeyword(low: Folding, artifact: string, k: string)
    requires FoldsLikeLower(low) && WellFormedKeyword(k) && WrapperIsClean(k)
    ensures Contains(Fold(low, Normalizer.Wrap(artifact)), k) <==> Contains(Fold(low, artifact), k)
  {
    var body := Fold(low, Indent(artifact));
    FoldWrap(low, artifact);
    assert '\n' !in k;
    calc {
      Contains(Normalizer.WRAPPER_HEAD + (body + (['\n'] + (['\n'] + CLOSING))), k);
    <==> { ContainsAcross(Normalizer.WRAPPER_HEAD, body + (['\n'] + (['\n'] + CLOSING)), k); }
      Contains(body + (['\n'] + (['\n'] + CLOSING)), k);
    <==> { ContainsSeparated(body, '\n', ['\n'] + CLOSING, k); }
      Contains(body, k) || Contains(['\n'] + CLOSING, k);
    <==> { ContainsAfter('\n', CLOSING, k); ClosingIsClean(k); }
      Contains(body, k);
    <==> { IndentKeepsKeyword(low, artifact, k); }
      Contains(Fold(low, artifact), k);
    }
  }

  /** The folding that changes nothing: the case-sensitive scan. */
  function AsWritten(): Folding {
    c => [c]
  }

  lemma AsWrittenIsIdentity(s: string)
    ensures FoldsLikeLower(AsWritten()) && Fold(AsWritten(), s) == s
  {
    FoldFixed(AsWritten(), s);
  }

  lemma WrapKeepsHighRisk(artifact: string)
    ensures AnyKeyword(HIGH_RISK_KEYWORDS, Normalizer.Wrap(artifact))
       <==> AnyKeyword(HIGH_RISK_KEYWORDS, artifact)
  {
    AsWrittenIsIdentity(artifact);
    AsWrittenIsIdentity(Normalizer.Wrap(artifact));
    forall j | 0 <= j < |HIGH_RISK_KEYWORDS|
      ensures Contains(Normalizer.Wrap(artifact), HIGH_RISK_KEYWORDS[j])
         <==> Contains(artifact, HIGH_RISK_KEYWORDS[j])
    {
      HighRiskKeywordsAreForeign(j);
      WrapKeepsKeyword(AsWritten(), artifact, HIGH_RISK_KEYWORDS[j]);
    }
  }

  lemma WrapKeepsSecrets(low: Folding, artifact: string)
    requires FoldsLikeLower(low)
    ensures AnyKeyword(SECRET_CREDENTIAL_KEYWORDS, Fold(low, Normalizer.Wrap(artifact)))
       <==> AnyKeyword(SECRET_CREDENTIAL_KEYWORDS, Fold(low, artifact))
  {
    forall j | 0 <= j < |SECRET_CREDENTIAL_KEYWORDS|
      ensures Contains(Fold(low, Normalizer.Wrap(artifact)), SECRET_CREDENTIAL_KEYWORDS[j])
         <==> Contains(Fold(low, artifact), SECRET_CREDENTIAL_KEYWORDS[j])
    {
      SecretKeywordsAreForeign(j);
      WrapKeepsKeyword(low, artifact, SECRET_CREDENTIAL_KEYWORDS[j]);
    }
  }

  /** The scan says the same of the code the sandbox runs as of the artifact that was
      reviewed, whichever form the normaliser chose. */
  lemma ScanSurvivesNormalization(low: Folding, compile: Normalizer.Compiler, artifact: string)
    requires FoldsLikeLower(low)
    requires Normalizer.Normalize(compile, artifact).Normalized?
    requires Normalizer.Normalize(compile, artifact).outcome != Normalizer.Rejected
    ensures ScanFires(low, Normalizer.Normalize(compile, artifact).code) <==> ScanFires(low, artifact)
  {
    Normalizer.RunnableCompiles(compile, artifact);
    WrapKeepsHighRisk(artifact);
    WrapKeepsSecrets(low, artifact);
  }
}
