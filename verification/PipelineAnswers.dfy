/** What a run makes of the answers it gets: which category, which specialist, which
    artifact, whether it is held, what is verified and reported. */
module PipelineAnswers {
  import opened Prelude
  import opened Pipeline
  import opened PipelineResume
  import CostGuard
  import Fence
  import Json
  import Normalizer
  import Reviewer
  import Text
  import Verifier

  // --------------------------------------------------------------- one request

  /** The request that counts: after a timeout the second one. */
  function Last(i: Input): Attempt {
    if i.first.TimedOut? then i.second else i.first
  }

  /** It was answered with `content`, at a cost that leaves the guard within its limit. */
  ghost predicate Answers(m: Moment, content: string) {
    && Last(m.1).Answered? && Last(m.1).content == content && Last(m.1).cost >= 0
    && m.0.currency == CostGuard.CNY && m.0.totalSpent + Last(m.1).cost <= m.0.budgetLimit
  }

  /** It was answered, and that takes the guard over its limit. */
  ghost predicate Overspends(m: Moment) {
    && Last(m.1).Answered? && Last(m.1).cost >= 0
    && m.0.currency == CostGuard.CNY && m.0.totalSpent + Last(m.1).cost > m.0.budgetLimit
  }

  /** The provider timed out twice or answered with an error of its own. */
  ghost predicate ProviderFails(m: Moment, message: string) {
    || (Last(m.1).TimedOut? && message == "request timed out")
    || Last(m.1) == Refused(message)
  }

  /** One event for the call, with the number of its attempts. */
  function Asked(m: Moment): Event {
    Called(if m.1.first.TimedOut? then 2 else 1)
  }

  /** An id of 32 lower-case hexadecimal digits, without which no request is sent. */
  lemma TraceIdIff(id: string)
    ensures IsTraceId(id) <==> |id| == 32 && forall c | c in id :: c in "0123456789abcdef"
  {
    if IsTraceId(id) {
      forall c | c in id
        ensures c in "0123456789abcdef"
      {
        HexDigit(c);
      }
    }
    if forall c | c in id :: c in "0123456789abcdef" {
      forall i | 0 <= i < |id|
        ensures '0' <= id[i] <= '9' || 'a' <= id[i] <= 'f'
      {
        assert id[i] in id;
        HexDigit(id[i]);
      }
    }
  }

  lemma HexDigit(c: char)
    ensures c in "0123456789abcdef" <==> '0' <= c <= '9' || 'a' <= c <= 'f'
  {
    var digits := "0123456789abcdef";
    if '0' <= c <= '9' {
      assert digits[c as int - '0' as int] == c;
    } else if 'a' <= c <= 'f' {
      assert digits[10 + c as int - 'a' as int] == c;
    }
  }

  lemma CallOf(traceId: Option<string>, m: Moment)
    requires IsTraceId(traceId.GetOr(""))
    ensures var call := Complete(m.0, traceId, m.1);
            && (forall content | Answers(m, content) :: call.end == Answer(content) && CallEvents(call) == [Asked(m)])
            && (Overspends(m) ==> call.end.OverBudget? && CallEvents(call) == [Asked(m), Tripped])
            && (forall message | ProviderFails(m, message) ::
                  call.end == Failed(message) && CallEvents(call) == [Asked(m)])
            && (forall message | Last(m.1) == Broke(message) ::
                  call.end == Blew(message) && CallEvents(call) == [Asked(m)] && call.guard == m.0)
  {
  }

  lemma FollowTwo(h: Host, r: Run, x: Moment, y: Moment)
    ensures var one := Step(h, r, x.0, x.1);
            var two := Step(h, one.run, y.0, y.1);
            Follow(h, r, [x, y]) == Trail(two.run, one.events + two.events)
  {
    var one := Step(h, r, x.0, x.1);
    FollowOne(h, one.run, y);
    assert [x, y][1..] == [y];
  }

  // ------------------------------------------------------ dispatch and parsing

  /** A run keeps the trace id it was given, or takes the fresh token as its own, and knows
      the log; one that cannot be parsed ends it with nothing but the reason. */
  lemma Opens(h: Host, r: Run, dispatch: Moment, parse: Moment)
    requires r.phase == At(Dispatch)
    ensures var t := Follow(h, r, [dispatch, parse]);
            var id := if r.state.traceId.GetOr("") == "" then Some(dispatch.1.token) else r.state.traceId;
            && t.events == []
            && (forall log | parse.1.file == Parsed(log) ::
                  t.run == r.(phase := At(Diagnosis),
                              state := r.state.(traceId := id, errorLog := Some(log), parseError := None)))
            && (forall detail | parse.1.file == Unreadable(detail) :: t.run.phase == Crashed(detail))
            && (parse.1.file == Missing ==> EndsUnparsed(r, t.run, "Log file not found: " + r.state.logPath))
            && (forall detail | parse.1.file == NotJson(detail) ::
                  EndsUnparsed(r, t.run, "Invalid JSON in " + detail))
            && (forall fields | parse.1.file == Lacks(fields) ::
                  EndsUnparsed(r, t.run, "Missing required fields in " + fields))
  {
    FollowTwo(h, r, dispatch, parse);
    Dispatched(h, r, dispatch);
    Parses(h, Step(h, r, dispatch.0, dispatch.1).run, parse);
  }

  lemma Dispatched(h: Host, r: Run, m: Moment)
    requires r.phase == At(Dispatch)
    ensures var id := if r.state.traceId.GetOr("") == "" then Some(m.1.token) else r.state.traceId;
            var o := Step(h, r, m.0, m.1);
            o.run == r.(phase := At(ParseLog), state := r.state.(traceId := id)) && o.events == []
  {
    assert r.state.agentTrace + [] == r.state.agentTrace;
  }

  lemma Parses(h: Host, r: Run, m: Moment)
    requires r.phase == At(ParseLog)
    ensures var o := Step(h, r, m.0, m.1);
            && o.events == []
            && (forall log | m.1.file == Parsed(log) ::
                  o.run == r.(phase := At(Diagnosis),
                              state := r.state.(errorLog := Some(log), parseError := None)))
            && (forall detail | m.1.file == Unreadable(detail) :: o.run.phase == Crashed(detail))
            && (m.1.file == Missing ==> EndsUnparsed(r, o.run, "Log file not found: " + r.state.logPath))
            && (forall detail | m.1.file == NotJson(detail) ::
                  EndsUnparsed(r, o.run, "Invalid JSON in " + detail))
            && (forall fields | m.1.file == Lacks(fields) ::
                  EndsUnparsed(r, o.run, "Missing required fields in " + fields))
  {
    assert r.state.agentTrace + [] == r.state.agentTrace;
  }

  ghost predicate EndsUnparsed(r: Run, last: Run, reason: string) {
    && last.phase.Finished? && last.thread == r.thread
    && last.state.parseError == Some(reason) && last.state.errorLog.None?
    && last.state.agentTrace == r.state.agentTrace && last.state.reportPath == r.state.reportPath
  }

  // ------------------------------------------------------ diagnosis and routing

  /** The reply names one of the four categories. */
  ghost predicate NamesCategory(reply: Json.JsonDoc, name: string) {
    && reply.Field("category") == Some(Json.JString(name))
    && (name == "CODE" || name == "INFRA" || name == "CONFIG" || name == "SECURITY")
  }

  /** The category on file is the one the reply names, or CODE if it names none. */
  lemma Diagnoses(h: Host, r: Run, m: Moment, content: string)
    requires r.phase == At(Diagnosis) && !r.state.costExhausted
    requires IsTraceId(r.state.traceId.GetOr("")) && Answers(m, content)
    ensures var t := Follow(h, r, [m]);
            var reply := h.decode(content);
            && t.events == [Asked(m)]
            && t.run.state.errorCategory.Some?
            && (var name := t.run.state.errorCategory.value;
                && (NamesCategory(reply, name)
                    || (name == "CODE" && forall other :: !NamesCategory(reply, other)))
                && t.run == r.(phase := At(Supervisor),
                               state := r.state.(errorCategory := Some(name),
                                                 agentTrace := r.state.agentTrace + [DiagnosisAgent])))
  {
    CallOf(r.state.traceId, m);
    FollowOne(h, r, m);
    CategoryIs(h.decode(content));
  }

  lemma CategoryIs(reply: Json.JsonDoc)
    ensures var name := ParseCategory(reply);
            || NamesCategory(reply, name)
            || (name == "CODE" && forall other :: !NamesCategory(reply, other))
  {
    var c := CATEGORIES;
    assert c[0] == "CODE" && c[1] == "INFRA" && c[2] == "CONFIG" && c[3] == "SECURITY";
    assert forall name :: name in c <==> name == c[0] || name == c[1] || name == c[2] || name == c[3];
  }

  /** The reply sends the run to a specialist, with a reason. */
  ghost predicate Names(reply: Json.JsonDoc, specialist: string, rationale: string) {
    && reply.Field("specialist") == Some(Json.JString(specialist))
    && reply.Field("rationale") == Some(Json.JString(rationale)) && rationale != ""
    && (specialist == "code_fixer" || specialist == "infra_sre")
  }

  /** The run goes to the infrastructure specialist exactly if the reply names it and gives
      a reason, and to the code fixer in all other cases. */
  lemma Routes(h: Host, r: Run, m: Moment, content: string)
    requires r.phase == At(Supervisor) && !r.state.costExhausted
    requires IsTraceId(r.state.traceId.GetOr("")) && Answers(m, content)
    ensures var t := Follow(h, r, [m]);
            var reply := h.decode(content);
            && t.events == [Asked(m)]
            && (t.run.phase == At(InfraSre) <==> exists why :: Names(reply, "infra_sre", why))
            && (t.run.phase == At(CodeFixer) <==> forall why :: !Names(reply, "infra_sre", why))
            && (forall name, why | Names(reply, name, why) ::
                  t.run.state.specialist == Some(name) && t.run.state.routingDecision == Some(why))
            && t.run == r.(phase := t.run.phase,
                           state := r.state.(specialist := t.run.state.specialist,
                                             routingDecision := t.run.state.routingDecision,
                                             agentTrace := r.state.agentTrace + [SupervisorAgent]))
            && t.run.state.specialist == Some(if t.run.phase == At(InfraSre) then "infra_sre" else "code_fixer")
  {
    CallOf(r.state.traceId, m);
    FollowOne(h, r, m);
    RoutingIs(h.decode(content));
  }

  lemma RoutingIs(reply: Json.JsonDoc)
    ensures var (name, rationale) := ParseRouting(reply);
            || (Names(reply, name, rationale) && forall n, w | Names(reply, n, w) :: n == name && w == rationale)
            || (name == "code_fixer" && forall n, w :: !Names(reply, n, w))
    ensures var (name, rationale) := ParseRouting(reply);
            name == "infra_sre" ==> Names(reply, name, rationale)
  {
    assert CODE_FIXER == "code_fixer" && INFRA_SRE == "infra_sre";
    assert "code_fixer"[0] != "infra_sre"[0];
  }

  /** Where the supervisor's edge leads: to the abort node on a spent budget, to the
      specialist on file, and, if none is on file, to the one for the category. */
  lemma EdgeFollows(s: AgentState)
    ensures var next := Successor(Supervisor, s);
            && (s.costExhausted ==> next == At(CostExhausted))
            && (!s.costExhausted && s.specialist == Some("infra_sre") ==> next == At(InfraSre))
            && (!s.costExhausted && s.specialist == Some("code_fixer") ==> next == At(CodeFixer))
            && (!s.costExhausted && s.specialist.GetOr("") == "" ==>
                  next == At(if s.errorCategory == Some("INFRA") || s.errorCategory == Some("CONFIG") then InfraSre
                             else CodeFixer))
  {
    assert CODE_FIXER[0] == 'c' && INFRA_SRE[0] == 'i' && COST_EXHAUSTED[2] == 's' && CODE_FIXER[2] == 'd';
  }

  // ------------------------------------------------------- producer and retry

  predicate AtSpecialist(r: Run) {
    && (r.phase == At(CodeFixer) || r.phase == At(InfraSre))
    && !r.state.costExhausted && IsTraceId(r.state.traceId.GetOr(""))
  }

  /** The artifact is handed to the reviewer. */
  function Delivered(r: Run, artifact: string): Run
    requires r.phase.Active()
  {
    r.(phase := At(SecurityReviewer),
       state := r.state.(fixArtifact := Some(artifact),
                         agentTrace := r.state.agentTrace
                                       + [if r.phase.node == InfraSre then InfraSREAgent else CodeFixerAgent]))
  }

  /** A first reply that compiles once its fence is off is delivered at once; one that the
      compiler fails on in another way than a syntax error is the end of the run. */
  lemma DeliversAtOnce(h: Host, r: Run, m: Moment, first: string)
    requires AtSpecialist(r) && Answers(m, first)
    ensures var t := Follow(h, r, [m]);
            var artifact := Fence.StripMarkdownFence(first);
            && t.events == [Asked(m)]
            && (h.compile(artifact) == Normalizer.Compiles ==> t.run == Delivered(r, artifact))
            && (forall message | h.compile(artifact) == Normalizer.OtherError(message) ::
                  t.run == r.(phase := Crashed(message)))
  {
    CallOf(r.state.traceId, m);
    FollowOne(h, r, m);
  }

  /** A first reply with a syntax error is asked for again, once; and what comes back the
      second time is delivered whether it compiles or not. */
  lemma AsksOnceMore(h: Host, r: Run, ask: Moment, again: Moment, first: string)
    requires AtSpecialist(r) && Answers(ask, first)
    requires h.compile(Fence.StripMarkdownFence(first)).SyntaxError?
    ensures var t := Follow(h, r, [ask, again]);
            && |t.events| >= 2 && t.events[..2] == [Asked(ask), Asked(again)]
            && (forall second | Answers(again, second) ::
                  t.run == Delivered(r, Fence.StripMarkdownFence(second)) && t.events == [Asked(ask), Asked(again)])
            && (Overspends(again) ==>
                  t.run == r.(phase := At(CostExhausted), state := r.state.(costExhausted := true))
                  && t.events == [Asked(ask), Asked(again), Tripped])
            && (forall message | ProviderFails(again, message) ::
                  t.run == r.(phase := Crashed(message)) && t.events == [Asked(ask), Asked(again)])
  {
    FollowTwo(h, r, ask, again);
    RejectsFirst(h, r, ask, first);
    AnswersRetry(h, Step(h, r, ask.0, ask.1).run, again);
  }

  lemma RejectsFirst(h: Host, r: Run, m: Moment, first: string)
    requires AtSpecialist(r) && Answers(m, first)
    requires h.compile(Fence.StripMarkdownFence(first)).SyntaxError?
    ensures var o := Step(h, r, m.0, m.1);
            && o.run == r.(phase := Retrying(r.phase.node, Fence.StripMarkdownFence(first)))
            && o.events == [Asked(m)]
  {
    CallOf(r.state.traceId, m);
  }

  lemma AnswersRetry(h: Host, r: Run, m: Moment)
    requires r.phase.Retrying? && (r.phase.node == CodeFixer || r.phase.node == InfraSre)
    requires !r.state.costExhausted && IsTraceId(r.state.traceId.GetOr(""))
    ensures var o := Step(h, r, m.0, m.1);
            && o.events != [] && o.events[0] == Asked(m)
            && (forall second | Answers(m, second) ::
                  o.run == Delivered(r, Fence.StripMarkdownFence(second)) && o.events == [Asked(m)])
            && (Overspends(m) ==>
                  o.run == r.(phase := At(CostExhausted), state := r.state.(costExhausted := true))
                  && o.events == [Asked(m), Tripped])
            && (forall message | ProviderFails(m, message) ::
                  o.run == r.(phase := Crashed(message)) && o.events == [Asked(m)])
  {
    CallOf(r.state.traceId, m);
    assert r.state.agentTrace + [] == r.state.agentTrace;
  }

  // -------------------------------------------------------------- review, gate

  predicate AtReviewer(r: Run) {
    && r.phase == At(SecurityReviewer) && !r.approved
    && !r.state.costExhausted && IsTraceId(r.state.traceId.GetOr(""))
  }

  /** The words that hold a fix whatever the model says of it. */
  ghost predicate Flagged(low: Text.Folding, artifact: string) {
    Reviewer.Destroys(artifact) || Reviewer.NamesSecret(Text.Fold(low, artifact))
  }

  /** The reply names one of the three verdicts. */
  ghost predicate NamesVerdict(reply: Json.JsonDoc, verdict: Reviewer.Verdict) {
    reply.Field("verdict")
    == Some(Json.JString(match verdict
                         case Safe => "SAFE"
                         case Caution => "CAUTION"
                         case HighRisk => "HIGH_RISK"))
  }

  /** What is filed: HIGH_RISK for a flagged artifact or a provider that failed, else the
      verdict the reply names, else CAUTION. */
  ghost predicate Files(h: Host, artifact: string, m: Moment, verdict: Reviewer.Verdict) {
    if Flagged(h.low, artifact) || exists message :: ProviderFails(m, message) then
      verdict == Reviewer.HighRisk
    else
      && Last(m.1).Answered?
      && var reply := h.decode(Last(m.1).content);
         || NamesVerdict(reply, verdict)
         || (verdict == Reviewer.Caution && forall other :: !NamesVerdict(reply, other))
  }

  ghost predicate Heard(m: Moment) {
    (exists content :: Answers(m, content)) || (exists message :: ProviderFails(m, message))
  }

  lemma VerdictIs(reply: Json.JsonDoc, verdict: Reviewer.Verdict)
    requires NamesVerdict(reply, verdict) || (verdict == Reviewer.Caution && forall other :: !NamesVerdict(reply, other))
    ensures verdict == Reviewer.ParseVerdict(reply)
  {
    assert "SAFE"[0] != "CAUTION"[0] && "SAFE"[0] != "HIGH_RISK"[0] && "CAUTION"[0] != "HIGH_RISK"[0];
    var said := Reviewer.ParseVerdict(reply);
    if !NamesVerdict(reply, verdict) {
      assert !NamesVerdict(reply, said);
      assert !NamesVerdict(reply, Reviewer.Safe) && !NamesVerdict(reply, Reviewer.HighRisk);
    }
  }

  lemma Reviews(h: Host, r: Run, m: Moment, verdict: Reviewer.Verdict)
    requires AtReviewer(r) && Heard(m) && Files(h, r.state.fixArtifact.GetOr(""), m, verdict)
    ensures var o := Step(h, r, m.0, m.1);
            && o.run == r.(phase := At(SecurityGate),
                           state := r.state.(securityVerdict := Some(verdict),
                                             agentTrace := r.state.agentTrace + [SecurityReviewerAgent]))
            && o.events == [Asked(m), Reviewed(r.state.fixArtifact, verdict)]
  {
    CallOf(r.state.traceId, m);
    Reviewer.FiresIff(h.low, r.state.fixArtifact.GetOr(""));
    if (exists content :: Answers(m, content)) && !Flagged(h.low, r.state.fixArtifact.GetOr("")) {
      VerdictIs(h.decode(Last(m.1).content), verdict);
    }
  }

  /** Review and gate together: an artifact with one of the words is held whatever the
      model says, and so is one that could not be reviewed or was called HIGH_RISK; any
      other goes on to the verifier, with the verdict the model gave or with CAUTION. */
  lemma HeldForItsWords(h: Host, r: Run, review: Moment, gate: Moment, verdict: Reviewer.Verdict)
    requires AtReviewer(r) && Heard(review) && Files(h, r.state.fixArtifact.GetOr(""), review, verdict)
    ensures var t := Follow(h, r, [review, gate]);
            var reviewed := r.state.(securityVerdict := Some(verdict),
                                     agentTrace := r.state.agentTrace + [SecurityReviewerAgent]);
            && (verdict == Reviewer.HighRisk ==>
                  && t.run == r.(phase := Suspended, state := reviewed)
                  && t.events == [Asked(review), Reviewed(r.state.fixArtifact, verdict), Paused])
            && (verdict != Reviewer.HighRisk ==>
                  && t.run == r.(phase := At(Verification), state := reviewed.(approvalRequired := false))
                  && t.events == [Asked(review), Reviewed(r.state.fixArtifact, verdict)])
  {
    FollowTwo(h, r, review, gate);
    Reviews(h, r, review, verdict);
    Gates(h, Step(h, r, review.0, review.1).run, gate);
  }

  /** An artifact with one of the words ends up suspended even if the model calls it SAFE;
      one with none of them that the model calls SAFE or CAUTION goes to the verifier. */
  lemma WordsDecide(h: Host, r: Run, review: Moment, gate: Moment, content: string, verdict: Reviewer.Verdict)
    requires AtReviewer(r) && Answers(review, content)
    requires NamesVerdict(h.decode(content), verdict) && verdict != Reviewer.HighRisk
    ensures var last := Follow(h, r, [review, gate]).run;
            var artifact := r.state.fixArtifact.GetOr("");
            && (last.phase.Suspended? <==>
                  Reviewer.Destroys(artifact) || Reviewer.NamesSecret(Text.Fold(h.low, artifact)))
            && (last.phase == At(Verification) <==> last.state.securityVerdict == Some(verdict))
            && (last.phase.Suspended? || last.phase == At(Verification))
  {
    var filed := HighRiskIff(h, r.state.fixArtifact.GetOr(""), review);
    HeldForItsWords(h, r, review, gate, filed);
    if filed != verdict && filed != Reviewer.HighRisk {
      VerdictIs(h.decode(content), filed);
      VerdictIs(h.decode(content), verdict);
    }
    VerdictIs(h.decode(content), verdict);
    if NamesVerdict(h.decode(content), Reviewer.HighRisk) {
      VerdictIs(h.decode(content), Reviewer.HighRisk);
    }
  }

  lemma Gates(h: Host, r: Run, m: Moment)
    requires r.phase == At(SecurityGate)
    ensures var o := Step(h, r, m.0, m.1);
            var held := r.state.securityVerdict == Some(Reviewer.HighRisk);
            if held && !r.approved then o.run == r.(phase := Suspended) && o.events == [Paused]
            else o.run == r.(phase := At(Verification), state := r.state.(approvalRequired := held))
                 && o.events == []
  {
    assert r.state.agentTrace + [] == r.state.agentTrace;
  }

  /** A verdict is always filed, and HIGH_RISK exactly for these reasons. */
  lemma HighRiskIff(h: Host, artifact: string, m: Moment) returns (verdict: Reviewer.Verdict)
    requires Heard(m)
    ensures Files(h, artifact, m, verdict)
    ensures verdict == Reviewer.HighRisk <==>
              || Flagged(h.low, artifact)
              || (exists message :: ProviderFails(m, message))
              || (Last(m.1).Answered? && NamesVerdict(h.decode(Last(m.1).content), Reviewer.HighRisk))
  {
    if Flagged(h.low, artifact) || exists message :: ProviderFails(m, message) {
      verdict := Reviewer.HighRisk;
    } else {
      verdict := Reviewer.ParseVerdict(h.decode(Last(m.1).content));
      if other :| NamesVerdict(h.decode(Last(m.1).content), other) {
        VerdictIs(h.decode(Last(m.1).content), other);
      } else {
        VerdictIs(h.decode(Last(m.1).content), Reviewer.Caution);
      }
    }
  }

  // ------------------------------------------------------ verification, report

  /** The verifier's answer goes on file, and the report's path ends the run. */
  lemma VerifiesAndReports(h: Host, r: Run, verify: Moment, report: Moment, path: string, text: string)
    requires r.phase == At(Verification) && r.state.errorLog.Some?
    requires Verifier.Outcome(h.compile, r.state.fixArtifact, verify.1.sandbox).Report?
    requires report.1.report == Written(text, path)
    ensures var t := Follow(h, r, [verify, report]);
            var o := Verifier.Outcome(h.compile, r.state.fixArtifact, verify.1.sandbox);
            && t.run.phase.Finished?
            && PipelineResult(t.run) == (if r.state.parseError.GetOr("") == "" then Some(path) else None)
            && t.run.state.executionResult == o.result && t.run.state.executionError == o.error
            && t.run.state.reportText == Some(text) && t.run.state.reportPath == Some(path)
            && t.run.state.agentTrace == r.state.agentTrace + [VerifierAgent]
            && FindingsOf(t.run.state) == FindingsOf(r.state)
            && t.events == [Verified(r.state.fixArtifact, o.ran), Reported(path)]
  {
    FollowTwo(h, r, verify, report);
    Verifies(h, r, verify);
    Reports(h, Step(h, r, verify.0, verify.1).run, report, path, text);
  }

  /** A verified run differs from the one before in its phase, its result and its mark. */
  lemma Verifies(h: Host, r: Run, m: Moment)
    requires r.phase == At(Verification)
    requires Verifier.Outcome(h.compile, r.state.fixArtifact, m.1.sandbox).Report?
    ensures var o := Verifier.Outcome(h.compile, r.state.fixArtifact, m.1.sandbox);
            var n := Step(h, r, m.0, m.1);
            && n.run == r.(phase := At(FormatReport),
                           state := r.state.(executionResult := o.result, executionError := o.error,
                                             fixNormalization := if o.normalization.Some? then o.normalization
                                                                 else r.state.fixNormalization,
                                             agentTrace := r.state.agentTrace + [VerifierAgent]))
            && n.events == [Verified(r.state.fixArtifact, o.ran)]
  {
  }

  lemma Reports(h: Host, r: Run, m: Moment, path: string, text: string)
    requires r.phase == At(FormatReport) && r.state.errorLog.Some? && m.1.report == Written(text, path)
    ensures var n := Step(h, r, m.0, m.1);
            && n.run == r.(phase := Finished,
                           state := r.state.(reportText := Some(text), reportPath := Some(path)))
            && n.events == [Reported(path)]
  {
    assert r.state.agentTrace + [] == r.state.agentTrace;
  }

  // ------------------------------------------------------------- calls that fail

  /** The nodes that call a model. */
  predicate Calling(r: Run) {
    && (r.phase == At(Diagnosis) || r.phase == At(Supervisor) || r.phase == At(CodeFixer)
        || r.phase == At(InfraSre) || r.phase == At(SecurityReviewer))
    && !r.state.costExhausted && IsTraceId(r.state.traceId.GetOr(""))
  }

  /** A call over the limit sends any of them to the abort node; an error of the provider
      is the end of the run, except at the reviewer; any other exception of the call is the
      end of it everywhere. */
  lemma CallFails(h: Host, r: Run, m: Moment)
    requires Calling(r)
    ensures var o := Step(h, r, m.0, m.1);
            && (Overspends(m) ==>
                  && o.run == r.(phase := At(CostExhausted), state := r.state.(costExhausted := true))
                  && o.events == [Asked(m), Tripped])
            && (forall message | ProviderFails(m, message) && r.phase != At(SecurityReviewer) ::
                  o.run == r.(phase := Crashed(message)) && o.events == [Asked(m)])
            && (forall message | Last(m.1) == Broke(message) ::
                  o.run == r.(phase := Crashed(message)) && o.events == [Asked(m)] && o.guard == m.0)
  {
    var s, g, i := r.state, m.0, m.1;
    CallOf(s.traceId, m);
    var n := RunNode(h, r.phase.node, r.approved, s, g, i);
    NodeFails(h, r.phase.node, r.approved, s, g, i);
    if Overspends(m) {
      FlagOnly(r, r.phase.node, n);
    }
  }

  lemma NodeFails(h: Host, node: Node, approved: bool, s: AgentState, g: CostGuard.GuardState, i: Input)
    requires node in {Diagnosis, Supervisor, CodeFixer, InfraSre, SecurityReviewer}
    ensures var call := Complete(g, s.traceId, i);
            var n := RunNode(h, node, approved, s, g, i);
            && (call.end.OverBudget? ==> n.end == Commit(BUDGET_FLAG) && n.events == CallEvents(call))
            && (call.end.Failed? && node != SecurityReviewer ==>
                  n.end == Raise(call.end.message) && n.events == CallEvents(call))
            && (call.end.Blew? ==>
                  n.end == Raise(call.end.message) && n.events == CallEvents(call) && n.guard == call.guard)
  {
  }

  /** Under an id that is not well formed nothing is asked: the run ends at its first call. */
  lemma NothingIsAsked(h: Host, r: Run, m: Moment)
    requires r.phase.At? && r.phase.node in {Diagnosis, Supervisor, CodeFixer, InfraSre, SecurityReviewer}
    requires !IsTraceId(r.state.traceId.GetOr(""))
    ensures var o := Step(h, r, m.0, m.1);
            o.run.phase.Crashed? && o.run.state == r.state && o.events == [] && o.guard == m.0
  {
    NodeFails(h, r.phase.node, r.approved, r.state, m.0, m.1);
  }

  lemma FlagOnly(r: Run, node: Node, n: NodeRun)
    requires r.phase.At? && !r.state.costExhausted && n.end == Commit(BUDGET_FLAG)
    requires node in {Diagnosis, Supervisor, CodeFixer, InfraSre, SecurityReviewer}
    ensures Settle(r, node, n).run == r.(phase := At(CostExhausted), state := r.state.(costExhausted := true))
  {
    assert r.state.agentTrace + [] == r.state.agentTrace;
  }

  /** After a call over the limit the run notes the guard's total of that moment and ends;
      what it had found stays, and it has no path to return. */
  lemma OverspendingEnds(h: Host, r: Run, m: Moment, last: Moment)
    requires Calling(r) && Overspends(m) && r.state.reportPath.None?
    ensures var t := Follow(h, r, [m, last]);
            && t.run == r.(phase := Finished,
                           state := r.state.(costExhausted := true,
                                             costAccumulated := Some(last.0.totalSpent),
                                             agentTrace := r.state.agentTrace + [CostGuardTriggered]))
            && t.events == [Asked(m), Tripped] && PipelineResult(t.run).None?
  {
    FollowTwo(h, r, m, last);
    CallFails(h, r, m);
  }
}
