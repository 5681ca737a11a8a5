/** Whole runs from alert to report, told by the answers they get: straight through, or held
    at the gate and resumed. */
module WholeRun {
  import opened Prelude
  import opened Pipeline
  import opened PipelineAnswers
  import opened PipelineResume
  import Fence
  import Normalizer
  import Reviewer
  import Verifier

  /** The specialist's reply, asked for again if it has a syntax error, is this artifact. */
  ghost predicate Fixes(h: Host, fix: seq<Moment>, artifact: string) {
    || (&& |fix| == 1 && h.compile(artifact) == Normalizer.Compiles
        && exists first | Answers(fix[0], first) :: artifact == Fence.StripMarkdownFence(first))
    || (&& |fix| == 2
        && (exists first | Answers(fix[0], first) :: h.compile(Fence.StripMarkdownFence(first)).SyntaxError?)
        && (exists second | Answers(fix[1], second) :: artifact == Fence.StripMarkdownFence(second)))
  }

  function AllAsked(moments: seq<Moment>): seq<Event> {
    seq(|moments|, k requires 0 <= k < |moments| => Asked(moments[k]))
  }

  lemma FixIsDelivered(h: Host, r: Run, fix: seq<Moment>, artifact: string)
    requires AtSpecialist(r) && Fixes(h, fix, artifact)
    ensures Follow(h, r, fix) == Trail(Delivered(r, artifact), AllAsked(fix))
  {
    if |fix| == 1 {
      var first :| Answers(fix[0], first) && artifact == Fence.StripMarkdownFence(first);
      DeliversAtOnce(h, r, fix[0], first);
      assert fix == [fix[0]];
    } else {
      var first :| Answers(fix[0], first) && h.compile(Fence.StripMarkdownFence(first)).SyntaxError?;
      AsksOnceMore(h, r, fix[0], fix[1], first);
      assert fix == [fix[0], fix[1]];
    }
  }

  /** What is asked of the world up to the specialist. */
  datatype Opening = Opening(dispatch: Moment, parse: Moment, diagnose: Moment, route: Moment)

  function Moments(o: Opening): seq<Moment> {
    [o.dispatch, o.parse] + [o.diagnose] + [o.route]
  }

  /** The log parses, and diagnosis and supervisor are answered within the budget. */
  ghost predicate OpensWell(o: Opening) {
    && o.parse.1.file.Parsed?
    && (exists content :: Answers(o.diagnose, content))
    && (exists content :: Answers(o.route, content))
  }

  /** A run under way: it knows the log, has its id and its budget, and has no report. */
  predicate UnderWay(r: Run) {
    && !r.approved && r.state.errorLog.Some? && r.state.parseError.GetOr("") == "" && r.state.reportPath.None?
    && !r.state.costExhausted && IsTraceId(r.state.traceId.GetOr(""))
  }

  lemma ReachesSpecialist(h: Host, r: Run, o: Opening)
    requires r.phase == At(Dispatch) && !r.approved && !r.state.costExhausted && r.state.reportPath.None?
    requires IsTraceId(if r.state.traceId.GetOr("") == "" then o.dispatch.1.token else r.state.traceId.value)
    requires OpensWell(o)
    ensures var t := Follow(h, r, Moments(o));
            && AtSpecialist(t.run) && UnderWay(t.run) && t.run.thread == r.thread
            && t.run.state.errorLog == Some(o.parse.1.file.log)
            && t.run.state.agentTrace == r.state.agentTrace + [DiagnosisAgent, SupervisorAgent]
            && t.events == [Asked(o.diagnose), Asked(o.route)]
  {
    Opens(h, r, o.dispatch, o.parse);
    ReachesFromDiagnosis(h, Follow(h, r, [o.dispatch, o.parse]).run, o.diagnose, o.route);
    FollowConcat(h, r, [o.dispatch, o.parse], [o.diagnose] + [o.route]);
    assert Moments(o) == [o.dispatch, o.parse] + ([o.diagnose] + [o.route]);
  }

  lemma ReachesFromDiagnosis(h: Host, r: Run, diagnose: Moment, route: Moment)
    requires r.phase == At(Diagnosis) && UnderWay(r)
    requires (exists content :: Answers(diagnose, content)) && (exists content :: Answers(route, content))
    ensures var t := Follow(h, r, [diagnose] + [route]);
            && AtSpecialist(t.run) && UnderWay(t.run) && t.run.thread == r.thread
            && t.run.state.errorLog == r.state.errorLog
            && t.run.state.agentTrace == r.state.agentTrace + [DiagnosisAgent, SupervisorAgent]
            && t.events == [Asked(diagnose), Asked(route)]
  {
    var what :| Answers(diagnose, what);
    Diagnoses(h, r, diagnose, what);
    var diagnosed := Follow(h, r, [diagnose]).run;
    var whither :| Answers(route, whither);
    Routes(h, diagnosed, route, whither);
    FollowConcat(h, r, [diagnose], [route]);
  }

  /** The moments up to the gate. */
  function BeforeGate(o: Opening, fix: seq<Moment>, review: Moment): seq<Moment> {
    Moments(o) + fix + [review]
  }

  /** A run at the gate, with what it has found. */
  ghost predicate AtGate(r: Run, artifact: string, verdict: Reviewer.Verdict) {
    && r.phase == At(SecurityGate) && UnderWay(r)
    && r.state.fixArtifact == Some(artifact) && r.state.securityVerdict == Some(verdict)
  }

  lemma ReachesGate(h: Host, r: Run, o: Opening, fix: seq<Moment>, review: Moment, artifact: string,
                    verdict: Reviewer.Verdict)
    requires r.phase == At(Dispatch) && !r.approved && !r.state.costExhausted && r.state.reportPath.None?
    requires IsTraceId(if r.state.traceId.GetOr("") == "" then o.dispatch.1.token else r.state.traceId.value)
    requires OpensWell(o) && Fixes(h, fix, artifact) && Heard(review) && Files(h, artifact, review, verdict)
    ensures var t := Follow(h, r, BeforeGate(o, fix, review));
            && AtGate(t.run, artifact, verdict) && t.run.thread == r.thread
            && t.run.state.errorLog == Some(o.parse.1.file.log)
            && t.events == [Asked(o.diagnose), Asked(o.route)] + AllAsked(fix)
                           + [Asked(review), Reviewed(Some(artifact), verdict)]
  {
    ReachesSpecialist(h, r, o);
    var chosen := Follow(h, r, Moments(o)).run;
    FixIsDelivered(h, chosen, fix, artifact);
    var delivered := Delivered(chosen, artifact);
    Reviews(h, delivered, review, verdict);
    FollowOne(h, delivered, review);
    FollowConcat(h, r, Moments(o), fix);
    FollowConcat(h, r, Moments(o) + fix, [review]);
  }

  /** The container ran `code`, all logs were read, and nothing went wrong afterwards. */
  ghost predicate RunsThrough(verify: Moment, exit: int, out: string, err: string) {
    var env := verify.1.sandbox;
    env.setup.None? && env.cleanup.None? && Verifier.Gave(env, exit, out, err)
  }

  /** The end of a run whose fix was run: the result is that of the code the artifact was
      accepted as, and the caller gets the report's path. */
  ghost predicate Ended(h: Host, last: Run, events: seq<Event>, artifact: string, code: string, exit: int, out: string,
                        err: string, path: string)
  {
    && last.phase.Finished? && PipelineResult(last) == Some(path) && last.state.fixArtifact == Some(artifact)
    && last.state.executionError.None?
    && last.state.executionResult
       == Some(Verifier.ExecutionResult(if exit == 0 then Verifier.Success else Verifier.Failure,
                                        Some(exit), out, err))
    && events == [Verified(Some(artifact), Some(code)), Reported(path)]
  }

  lemma FinishesFromGate(h: Host, r: Run, gate: Moment, verify: Moment, report: Moment, artifact: string,
                         verdict: Reviewer.Verdict, code: string, exit: int, out: string, err: string,
                         path: string, text: string)
    requires AtGate(r.(approved := false), artifact, verdict)
    requires r.approved || verdict != Reviewer.HighRisk
    requires Normalizer.Accepts(h.compile, artifact, code) && RunsThrough(verify, exit, out, err)
    requires report.1.report == Written(text, path)
    ensures var t := Follow(h, r, [gate] + [verify, report]);
            && Ended(h, t.run, t.events, artifact, code, exit, out, err, path)
            && t.run.state.securityVerdict == Some(verdict)
  {
    Gates(h, r, gate);
    FollowOne(h, r, gate);
    FollowConcat(h, r, [gate], [verify, report]);
    var passed := Step(h, r, gate.0, gate.1).run;
    Verifier.RunIsReported(h.compile, artifact, verify.1.sandbox, code);
    VerifiesAndReports(h, passed, verify, report, path, text);
  }

  /** From alert to report without a stop: with the log parsed, every call answered within
      the budget, a second reply in place of one with a syntax error, an artifact that has
      none of the words, a verdict other than HIGH_RISK, and a container that runs through,
      the run makes one call for every answer, runs just what the artifact is accepted as,
      and returns the report's path. */
  lemma StraightThrough(h: Host, r: Run, o: Opening, fix: seq<Moment>, review: Moment, gate: Moment,
                        verify: Moment, report: Moment, artifact: string, verdict: Reviewer.Verdict, code: string,
                        exit: int, out: string, err: string, path: string, text: string)
    requires r.phase == At(Dispatch) && !r.approved && !r.state.costExhausted && r.state.reportPath.None?
    requires IsTraceId(if r.state.traceId.GetOr("") == "" then o.dispatch.1.token else r.state.traceId.value)
    requires OpensWell(o) && Fixes(h, fix, artifact) && Heard(review) && Files(h, artifact, review, verdict)
    requires verdict != Reviewer.HighRisk
    requires Normalizer.Accepts(h.compile, artifact, code) && RunsThrough(verify, exit, out, err)
    requires report.1.report == Written(text, path)
    ensures var asked := [Asked(o.diagnose), Asked(o.route)] + AllAsked(fix)
                         + [Asked(review), Reviewed(Some(artifact), verdict)];
            var t := Follow(h, r, BeforeGate(o, fix, review) + ([gate] + [verify, report]));
            && |asked| <= |t.events| && t.events[..|asked|] == asked
            && Ended(h, t.run, t.events[|asked|..], artifact, code, exit, out, err, path)
            && t.run.state.securityVerdict == Some(verdict)
  {
    ReachesGate(h, r, o, fix, review, artifact, verdict);
    var there := Follow(h, r, BeforeGate(o, fix, review)).run;
    FinishesFromGate(h, there, gate, verify, report, artifact, verdict, code, exit, out, err, path, text);
    FollowConcat(h, r, BeforeGate(o, fix, review), [gate] + [verify, report]);
  }

  /** The same with HIGH_RISK: the run is suspended before anything of it has run, and once
      resumed, at whatever time, runs the artifact that was reviewed and returns the path. */
  lemma HeldThenResumed(h: Host, r: Run, o: Opening, fix: seq<Moment>, review: Moment, gate: Moment,
                        reentry: Moment, verify: Moment, report: Moment, artifact: string, code: string,
                        exit: int, out: string, err: string, path: string, text: string)
    requires r.phase == At(Dispatch) && !r.approved && !r.state.costExhausted && r.state.reportPath.None?
    requires IsTraceId(if r.state.traceId.GetOr("") == "" then o.dispatch.1.token else r.state.traceId.value)
    requires OpensWell(o) && Fixes(h, fix, artifact) && Heard(review)
    requires Files(h, artifact, review, Reviewer.HighRisk)
    requires Normalizer.Accepts(h.compile, artifact, code) && RunsThrough(verify, exit, out, err)
    requires report.1.report == Written(text, path)
    ensures var t := Follow(h, r, BeforeGate(o, fix, review) + [gate]);
            && t.run.phase.Suspended? && PipelineResult(t.run).None?
            && t.events == [Asked(o.diagnose), Asked(o.route)] + AllAsked(fix)
                           + [Asked(review), Reviewed(Some(artifact), Reviewer.HighRisk)] + [Paused]
            && var u := Follow(h, Resume(t.run), [reentry] + [verify, report]);
               && Ended(h, u.run, u.events, artifact, code, exit, out, err, path)
               && u.run.state.securityVerdict == Some(Reviewer.HighRisk)
  {
    ReachesGate(h, r, o, fix, review, artifact, Reviewer.HighRisk);
    var there := Follow(h, r, BeforeGate(o, fix, review)).run;
    SuspendsAtGate(h, r, BeforeGate(o, fix, review), gate);
    var held := Follow(h, r, BeforeGate(o, fix, review) + [gate]).run;
    assert held == there.(phase := Suspended);
    FinishesFromGate(h, Resume(held), reentry, verify, report, artifact, Reviewer.HighRisk, code, exit, out, err,
                     path, text);
  }
}
