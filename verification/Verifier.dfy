/** The verifier: normalise the artifact, run it in a container, classify what happened,
    and always try to remove the container. */
module Verifier {
  import opened Prelude
  import Normalizer
  import Text

  datatype Status = Success | Failure | Timeout | Skipped

  datatype ExecutionResult = ExecutionResult(
    status: Status,
    returnCode: Option<int>,
    stdout: string,
    stderr: string)

  /** What one call into the container engine does: it returns, its socket read times
      out, or it raises anything else. */
  datatype Call<+T> = Returns(value: T) | ReadTimeout | Throws(message: string)

  /** Everything the sandbox may do to one run. */
  datatype Sandbox = Sandbox(
    setup: Option<string>,     // error while preparing the files or starting the container
    wait: Call<int>,           // the exit status
    stdout: Call<string>,
    stderr: Call<string>,
    kill: Option<string>,      // error of kill()
    cleanup: Option<string>,   // error while deleting the work directory
    remove: Option<string>)    // error of remove(), swallowed

  datatype Normalization = Normalization(outcome: Normalizer.Outcome, reason: Option<string>)

  /** The state update of the node, and the code a container was started with, if any.
      Only an exception of the host compiler escapes the node. */
  datatype Report =
    | Report(
        result: Option<ExecutionResult>,
        error: Option<string>,
        normalization: Option<Normalization>,
        ran: Option<string>)
    | Escaped(message: string)

  class Container {
    const code: string
    var kills: nat
    var removals: nat

    constructor (code: string)
      ensures this.code == code && kills == 0 && removals == 0
    {
      this.code := code;
      kills, removals := 0, 0;
    }
  }

  /** A value returned or an exception raised by a block of statements. */
  datatype Completion = Value(result: ExecutionResult) | Exception(message: string)

  /** A read timeout inside the guarded block: kill, then report a timeout. */
  function OnTimeout(env: Sandbox): Completion {
    match env.kill
    case Some(message) => Exception(message)
    case None => Value(ExecutionResult(Timeout, None, "", ""))
  }

  function Inner(env: Sandbox): Completion {
    match env.wait
    case ReadTimeout => OnTimeout(env)
    case Throws(message) => Exception(message)
    case Returns(code) =>
      match env.stdout
      case ReadTimeout => OnTimeout(env)
      case Throws(message) => Exception(message)
      case Returns(out) =>
        match env.stderr
        case ReadTimeout => OnTimeout(env)
        case Throws(message) => Exception(message)
        case Returns(err) =>
          Value(ExecutionResult(if code == 0 then Success else Failure, Some(code), out, err))
  }

  /** An error while deleting the work directory replaces whatever was on its way out. */
  function Outer(env: Sandbox): Completion {
    if env.cleanup.Some? then Exception(env.cleanup.value) else Inner(env)
  }

  function Outcome(compile: Normalizer.Compiler, artifact: Option<string>, env: Sandbox): Report {
    match artifact
    case None => Report(Some(ExecutionResult(Skipped, None, "", "")), None, None, None)
    case Some(text) =>
      match Normalizer.Normalize(compile, text)
      case CompilerRaised(message) => Escaped(message)
      case Normalized(code, outcome, reason) =>
        var normalization := Some(Normalization(outcome, reason));
        if outcome == Normalizer.Rejected then
          Report(Some(ExecutionResult(Failure, None, "", reason.GetOr("artifact rejected"))), None,
                 normalization, None)
        else if env.setup.Some? then Report(None, env.setup, normalization, None)
        else
          match Outer(env)
          case Value(result) => Report(Some(result), None, normalization, Some(code))
          case Exception(message) => Report(None, Some(message), normalization, Some(code))
  }

  predicate TimesOut(env: Sandbox) {
    || env.wait.ReadTimeout?
    || (env.wait.Returns? && env.stdout.ReadTimeout?)
    || (env.wait.Returns? && env.stdout.Returns? && env.stderr.ReadTimeout?)
  }

  /** The wait, the two log reads, and the timeout handler around them. */
  method RunInner(container: Container, env: Sandbox) returns (completion: Completion)
    modifies container
    ensures completion == Inner(env)
    ensures container.kills == old(container.kills) + if TimesOut(env) then 1 else 0
    ensures container.removals == old(container.removals)
  {
    var timedOut := false;
    match env.wait {
      case ReadTimeout => timedOut := true;
      case Throws(message) => return Exception(message);
      case Returns(code) =>
        match env.stdout {
          case ReadTimeout => timedOut := true;
          case Throws(message) => return Exception(message);
          case Returns(out) =>
            match env.stderr {
              case ReadTimeout => timedOut := true;
              case Throws(message) => return Exception(message);
              case Returns(err) =>
                var status := if code == 0 then Success else Failure;
                return Value(ExecutionResult(status, Some(code), out, err));
            }
        }
    }
    container.kills := container.kills + 1;
    if env.kill.Some? {
      return Exception(env.kill.value);
    }
    return Value(ExecutionResult(Timeout, None, "", ""));
  }

  /** The whole node. A container exists exactly when the report says code ran; it was
      started with that code and its removal was attempted exactly once, on every path
      and whether or not the attempt succeeded. */
  method Run(compile: Normalizer.Compiler, artifact: Option<string>, env: Sandbox)
    returns (report: Report, container: Container?)
    ensures report == Outcome(compile, artifact, env)
    ensures container != null <==> report.Report? && report.ran.Some?
    ensures container != null ==>
              && fresh(container)
              && report.ran == Some(container.code)
              && container.removals == 1
              && container.kills == if TimesOut(env) then 1 else 0
    ensures artifact.Some? && Normalizer.Wrappable(compile, artifact.value) && env.setup.None? ==>
              container != null && container.code == Normalizer.Wrap(artifact.value)
    ensures artifact.Some? && !Text.AllSpace(artifact.value) && env.setup.None?
            && compile(artifact.value) == Normalizer.Compiles ==>
              container != null && container.code == artifact.value
    ensures artifact.None? || (exists reason :: Normalizer.Refuses(compile, artifact.value, reason)) ==>
              container == null
  {
    if artifact.Some? {
      Normalizer.OutcomeIff(compile, artifact.value);
    }
    container := null;
    if artifact.None? {
      report := Report(Some(ExecutionResult(Skipped, None, "", "")), None, None, None);
      return;
    }
    var normalized := Normalizer.Normalize(compile, artifact.value);
    if normalized.CompilerRaised? {
      report := Escaped(normalized.message);
      return;
    }
    var normalization := Some(Normalization(normalized.outcome, normalized.reason));
    if normalized.outcome == Normalizer.Rejected {
      var shown := normalized.reason.GetOr("artifact rejected");
      report := Report(Some(ExecutionResult(Failure, None, "", shown)), None, normalization, None);
      return;
    }
    if env.setup.Some? {
      report := Report(None, env.setup, normalization, None);
    } else {
      container := new Container(normalized.code);
      var completion := RunInner(container, env);
      if env.cleanup.Some? {
        completion := Exception(env.cleanup.value);
      }
      match completion {
        case Value(result) =>
          report := Report(Some(result), None, normalization, Some(normalized.code));
        case Exception(message) =>
          report := Report(None, Some(message), normalization, Some(normalized.code));
      }
    }
    if container != null {
      container.removals := container.removals + 1;
    }
  }

  // ------------------------------------------------------------------ lemmas

  /** Exactly one of result and error is set, and code ran only if it is the accepted
      form of the artifact. */
  lemma OneOfResultAndError(compile: Normalizer.Compiler, artifact: Option<string>, env: Sandbox)
    requires Outcome(compile, artifact, env).Report?
    ensures var r := Outcome(compile, artifact, env);
            && (r.result.Some? <==> r.error.None?)
            && (r.ran.Some? ==>
                  && artifact.Some?
                  && Normalizer.Normalize(compile, artifact.value).Normalized?
                  && Normalizer.Normalize(compile, artifact.value).outcome != Normalizer.Rejected
                  && r.ran == Some(Normalizer.Normalize(compile, artifact.value).code)
                  && compile(r.ran.value) == Normalizer.Compiles)
  {
    if artifact.Some? && Normalizer.Normalize(compile, artifact.value).Normalized? {
      Normalizer.RunnableCompiles(compile, artifact.value);
    }
  }

  /** What the run and its two log reads gave, if they all returned. */
  ghost predicate Gave(env: Sandbox, code: int, out: string, err: string) {
    env.wait == Returns(code) && env.stdout == Returns(out) && env.stderr == Returns(err)
  }

  /** What the first of them that did not return raised, a read timeout aside. */
  ghost predicate Raised(env: Sandbox, message: string) {
    || env.wait == Throws(message)
    || (env.wait.Returns? && env.stdout == Throws(message))
    || (env.wait.Returns? && env.stdout.Returns? && env.stderr == Throws(message))
  }

  /** How an accepted artifact's run is reported: an error of the clean-up before all else;
      then exit status and both logs if all were read; a bare timeout if one of them timed
      out and the kill went well; and otherwise the error of the kill or of the call. */
  lemma RunIsReported(compile: Normalizer.Compiler, artifact: string, env: Sandbox, code: string)
    requires Normalizer.Accepts(compile, artifact, code) && env.setup.None?
    ensures var r := Outcome(compile, Some(artifact), env);
            && r.Report? && r.ran == Some(code)
            && r.normalization == Some(Normalization(if compile(artifact) == Normalizer.Compiles then Normalizer.Verbatim
                                                     else Normalizer.Wrapped, None))
            && (forall message | env.cleanup == Some(message) :: r.result.None? && r.error == Some(message))
            && (env.cleanup.None? ==>
                  && (forall exit, out, err | Gave(env, exit, out, err) ::
                        && r.result == Some(ExecutionResult(if exit == 0 then Success else Failure,
                                                            Some(exit), out, err))
                        && r.error.None?)
                  && (forall message | Raised(env, message) :: r.result.None? && r.error == Some(message))
                  && (TimesOut(env) && env.kill.None? ==>
                        r.result == Some(ExecutionResult(Timeout, None, "", "")) && r.error.None?)
                  && (TimesOut(env) && env.kill.Some? ==> r.result.None? && r.error == env.kill))
  {
    Normalizer.OutcomeIff(compile, artifact);
  }

  /** Without an artifact the run is skipped; a refused one fails with the reason on its
      standard error; and a container that cannot be started is an error. */
  lemma NothingRan(compile: Normalizer.Compiler, artifact: Option<string>, env: Sandbox)
    ensures var r := Outcome(compile, artifact, env);
            && (artifact.None? ==> r.Report? && r.error.None? && r.ran.None?
                                   && r.result == Some(ExecutionResult(Skipped, None, "", "")))
            && (artifact.Some? ==>
                  && (forall reason | Normalizer.Refuses(compile, artifact.value, reason) ::
                        && r.Report? && r.error.None? && r.ran.None?
                        && r.result == Some(ExecutionResult(Failure, None, "", reason))
                        && r.normalization == Some(Normalization(Normalizer.Rejected, Some(reason))))
                  && (forall code | Normalizer.Accepts(compile, artifact.value, code) && env.setup.Some? ::
                        r.Report? && r.result.None? && r.error == env.setup && r.ran.None?))
  {
    if artifact.Some? {
      Normalizer.OutcomeIff(compile, artifact.value);
    }
  }

  predicate Succeeded(r: Report) {
    r.Report? && r.error.None? && r.result.Some? && r.result.value.status == Success
  }

  /** Success is reported exactly when an accepted artifact ran in a container to exit
      status 0 and neither the log reads nor the clean-up failed. */
  lemma SuccessIff(compile: Normalizer.Compiler, artifact: Option<string>, env: Sandbox)
    ensures Succeeded(Outcome(compile, artifact, env))
       <==> && artifact.Some?
            && (var n := Normalizer.Normalize(compile, artifact.value);
                n.Normalized? && n.outcome != Normalizer.Rejected)
            && env.setup.None? && env.wait == Returns(0)
            && env.stdout.Returns? && env.stderr.Returns? && env.cleanup.None?
  {
  }
}
