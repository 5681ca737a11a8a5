/** Deterministic normalisation of a fix artifact before it runs in the sandbox. */
module Normalizer {
  import opened Prelude
  import opened Text

  /** What the host compiler says of a source text. Only a syntax error is caught
      by the callers; any other exception passes through them. */
  datatype CompileResult = Compiles | SyntaxError(message: string) | OtherError(message: string)

  type Compiler = string -> CompileResult

  const FRAGMENT_SYMPTOMS := ["'return' outside function", "'yield' outside function"]

  const WRAPPER_HEAD := "def __autosentinel_fix__():\n"

  const CALL_LINE := "_autosentinel_result = " + "__autosentinel_fix__()\n"
  const GUARD_SEND := "if hasattr(_autosentinel_result, " + "\"send\") and "
  const GUARD_THROW := "hasattr(_autosentinel_result, " + "\"throw\"):\n"
  const GUARD_LINE := GUARD_SEND + GUARD_THROW
  const LOOP_LINE := "    for _ in _autosentinel_result:\n"
  const DRAIN_LINE := "        pass\n"

  const WRAPPER_TAIL := "\n\n" + (CALL_LINE + (GUARD_LINE + (LOOP_LINE + DRAIN_LINE)))

  function Wrap(artifact: string): string {
    WRAPPER_HEAD + (Indent(artifact) + WRAPPER_TAIL)
  }

  datatype Outcome = Verbatim | Wrapped | Rejected

  datatype NormalizedArtifact =
    | Normalized(code: string, outcome: Outcome, reason: Option<string>)
    | CompilerRaised(message: string)

  predicate IsFragment(message: string) {
    exists symptom | symptom in FRAGMENT_SYMPTOMS :: Contains(message, symptom)
  }

  function Reject(reason: string): NormalizedArtifact {
    Normalized("", Rejected, Some(reason))
  }

  function Normalize(compile: Compiler, artifact: string): NormalizedArtifact {
    if Trim(artifact) == "" then Reject("empty artifact")
    else
      match compile(artifact)
      case Compiles => Normalized(artifact, Verbatim, None)
      case OtherError(message) => CompilerRaised(message)
      case SyntaxError(message) =>
        if !IsFragment(message) then Reject("SyntaxError: " + message)
        else
          match compile(Wrap(artifact))
          case Compiles => Normalized(Wrap(artifact), Wrapped, None)
          case OtherError(inner) => CompilerRaised(inner)
          case SyntaxError(inner) => Reject("SyntaxError: " + inner)
  }

  // ------------------------------------------- what is wrapped, and as what

  /** A statement that only a function body may hold. */
  ghost predicate MisplacedStatement(verdict: CompileResult) {
    && verdict.SyntaxError?
    && (Contains(verdict.message, "'return' outside function")
        || Contains(verdict.message, "'yield' outside function"))
  }

  /** It does not compile as it stands for such a statement only. */
  ghost predicate Wrappable(compile: Compiler, artifact: string) {
    && !AllSpace(artifact)
    && MisplacedStatement(compile(artifact))
    && compile(Wrap(artifact)) == Compiles
  }

  /** The code that may run for the artifact. */
  ghost predicate Accepts(compile: Compiler, artifact: string, code: string) {
    || (!AllSpace(artifact) && compile(artifact) == Compiles && code == artifact)
    || (Wrappable(compile, artifact) && code == Wrap(artifact))
  }

  /** Why there is none, if there is none and the compiler itself did not fail. */
  ghost predicate Refuses(compile: Compiler, artifact: string, reason: string) {
    || (AllSpace(artifact) && reason == "empty artifact")
    || (!AllSpace(artifact)
        && var own, inner := compile(artifact), compile(Wrap(artifact));
           || (own.SyntaxError? && !MisplacedStatement(own) && reason == "SyntaxError: " + own.message)
           || (MisplacedStatement(own) && inner.SyntaxError? && reason == "SyntaxError: " + inner.message))
  }

  lemma FragmentIff(verdict: CompileResult)
    ensures MisplacedStatement(verdict) <==> verdict.SyntaxError? && IsFragment(verdict.message)
  {
    assert FRAGMENT_SYMPTOMS[0] in FRAGMENT_SYMPTOMS && FRAGMENT_SYMPTOMS[1] in FRAGMENT_SYMPTOMS;
  }

  /** The artifact goes verbatim exactly if it compiles, and wrapped exactly if it is kept
      from compiling by a misplaced return or yield and its wrapped form compiles; it is
      rejected exactly if it is blank or one of the two texts has another syntax error, with
      that as the reason; and only another exception of the compiler passes through. */
  lemma OutcomeIff(compile: Compiler, artifact: string)
    ensures var n := Normalize(compile, artifact);
            && (n.Normalized? && n.outcome == Verbatim <==> !AllSpace(artifact) && compile(artifact) == Compiles)
            && (n.Normalized? && n.outcome == Wrapped <==> Wrappable(compile, artifact))
            && (n.Normalized? && n.outcome == Rejected <==> exists reason :: Refuses(compile, artifact, reason))
            && (forall reason | Refuses(compile, artifact, reason) ::
                  n == Normalized("", Rejected, Some(reason)))
            && (forall code | Accepts(compile, artifact, code) ::
                  n == Normalized(code, if compile(artifact) == Compiles then Verbatim else Wrapped, None))
            && (n.CompilerRaised? <==>
                  && !AllSpace(artifact)
                  && (compile(artifact).OtherError?
                      || (MisplacedStatement(compile(artifact)) && compile(Wrap(artifact)).OtherError?)))
  {
    TrimEmptyIff(artifact);
    var own, inner := compile(artifact), compile(Wrap(artifact));
    FragmentIff(own);
    if AllSpace(artifact) {
      assert Refuses(compile, artifact, "empty artifact");
    } else if own.SyntaxError? && !MisplacedStatement(own) {
      assert Refuses(compile, artifact, "SyntaxError: " + own.message);
    } else if MisplacedStatement(own) && inner.SyntaxError? {
      assert Refuses(compile, artifact, "SyntaxError: " + inner.message);
    }
  }

  /** The template, written out, around the indented artifact. */
  lemma TemplateIs(artifact: string)
    ensures Wrap(artifact)
         == "def __autosentinel_fix__():\n"
            + (Indent(artifact) + ("\n\n"
            + ("_autosentinel_result = " + "__autosentinel_fix__()\n"
            + ("if hasattr(_autosentinel_result, " + "\"send\") and "
            + ("hasattr(_autosentinel_result, " + "\"throw\"):\n")
            + ("    for _ in _autosentinel_result:\n" + "        pass\n")))))
    ensures OneLine(artifact) && !AllSpace(artifact) ==> Indent(artifact) == "    " + artifact
  {
    if OneLine(artifact) {
      IndentsEachLine(artifact, "", "");
    }
  }

  /** Something is runnable exactly when it compiles: a rejected artifact leaks no
      code and carries a reason, an accepted one compiles and carries none, and the
      code is the artifact itself or its wrapped form. */
  lemma RunnableCompiles(compile: Compiler, artifact: string)
    requires Normalize(compile, artifact).Normalized?
    ensures var n := Normalize(compile, artifact);
            && (n.outcome == Rejected <==> n.code == "")
            && (n.outcome == Rejected <==> n.reason.Some?)
            && (n.outcome != Rejected ==> compile(n.code) == Compiles)
            && (n.outcome != Rejected ==> n.code == artifact || n.code == Wrap(artifact))
  {
    if artifact == "" {
      assert Trim(artifact) == "";
    }
    assert WRAPPER_HEAD[0] == 'd';
  }

  /** Normalising what was accepted once changes nothing more. */
  lemma NormalizeTwice(compile: Compiler, artifact: string)
    requires Normalize(compile, artifact).Normalized?
    requires Normalize(compile, artifact).outcome != Rejected
    ensures var code := Normalize(compile, artifact).code;
            Normalize(compile, code) == Normalized(code, Verbatim, None)
  {
    RunnableCompiles(compile, artifact);
    var code := Normalize(compile, artifact).code;
    if code == Wrap(artifact) {
      assert !IsSpace(code[0]) by { assert WRAPPER_HEAD[0] == 'd'; }
      TrimEmptyIff(code);
    }
  }
}
