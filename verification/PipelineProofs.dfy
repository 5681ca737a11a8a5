/** What holds of a run on a fresh thread at every step, whatever the inputs are and
    however other runs move the shared guard in between. */
module PipelineProofs {
  import opened Prelude
  import opened Pipeline
  import CostGuard
  import Reviewer
  import Verifier

  // ------------------------------------------------------------ the invariant

  function Fixer(specialist: Option<string>): Entry {
    if specialist == Some(INFRA_SRE) then InfraSREAgent else CodeFixerAgent
  }

  /** The agents that have run after `k` of the five, with `specialist` in third place. */
  function Agents(specialist: Option<string>, k: nat): seq<Entry>
    requires k <= 5
  {
    if k == 0 then []
    else if k == 1 then [DiagnosisAgent]
    else if k == 2 then [DiagnosisAgent, SupervisorAgent]
    else if k == 3 then [DiagnosisAgent, SupervisorAgent, Fixer(specialist)]
    else if k == 4 then [DiagnosisAgent, SupervisorAgent, Fixer(specialist), SecurityReviewerAgent]
    else [DiagnosisAgent, SupervisorAgent, Fixer(specialist), SecurityReviewerAgent, VerifierAgent]
  }

  /** The state after exactly `k` agents, before any report. */
  ghost predicate Progress(s: AgentState, k: nat)
    requires k <= 5
  {
    && s.agentTrace == Agents(s.specialist, k)
    && s.parseError.GetOr("") == ""
    && (k >= 1 ==> s.errorLog.Some? && s.errorCategory.Some? && s.errorCategory.value in CATEGORIES)
    && (if k >= 2 then s.specialist == Some(CODE_FIXER) || s.specialist == Some(INFRA_SRE)
        else s.specialist.None?)
    && (s.fixArtifact.Some? <==> k >= 3)
    && (s.securityVerdict.Some? <==> k >= 4)
    && (k < 4 ==> !s.approvalRequired)
    && (if k == 5 then s.executionResult.Some? <==> s.executionError.None?
        else s.executionResult.None? && s.executionError.None? && s.fixNormalization.None?)
    && s.reportPath.None? && s.reportText.None?
  }

  ghost predicate OnBudget(s: AgentState, k: nat)
    requires k <= 5
  {
    Progress(s, k) && !s.costExhausted
  }

  ghost predicate GatePassed(s: AgentState, approved: bool) {
    && s.securityVerdict.Some?
    && s.approvalRequired == (s.securityVerdict == Some(Reviewer.HighRisk))
    && (s.approvalRequired ==> approved)
  }

  ghost predicate Specialist(node: Node, s: AgentState) {
    node == if s.specialist == Some(INFRA_SRE) then InfraSre else CodeFixer
  }

  /** The state of a run that has ended without an uncaught exception. */
  ghost predicate EndState(s: AgentState, approved: bool) {
    || (s.parseError.GetOr("") != "" && s.agentTrace == [] && !s.costExhausted
        && s.reportPath.None? && s.reportText.None?)
    || (&& s.agentTrace == Agents(s.specialist, 5) && !s.costExhausted && GatePassed(s, approved)
        && (s.specialist == Some(CODE_FIXER) || s.specialist == Some(INFRA_SRE))
        && s.parseError.GetOr("") == "" && s.reportPath.Some? && s.reportText.Some?
        && (s.executionResult.Some? <==> s.executionError.None?))
    || (s.costExhausted && s.costAccumulated.Some? && s.reportPath.None? && s.executionResult.None?
        && s.parseError.GetOr("") == ""
        && exists k: nat | k <= 3 :: s.agentTrace == Agents(s.specialist, k) + [CostGuardTriggered])
  }

  ghost predicate RunInv(r: Run) {
    var s := r.state;
    match r.phase
    case At(Dispatch) => OnBudget(s, 0) && !r.approved
    case At(ParseLog) => OnBudget(s, 0) && !r.approved
    case At(Diagnosis) => OnBudget(s, 0) && s.errorLog.Some? && !r.approved
    case At(Supervisor) => OnBudget(s, 1) && !r.approved
    case At(CodeFixer) => OnBudget(s, 2) && Specialist(CodeFixer, s) && !r.approved
    case At(InfraSre) => OnBudget(s, 2) && Specialist(InfraSre, s) && !r.approved
    case Retrying(node, _) => OnBudget(s, 2) && Specialist(node, s) && !r.approved
    case At(SecurityReviewer) => OnBudget(s, 3) && !r.approved
    case At(SecurityGate) =>
      OnBudget(s, 4) && !s.approvalRequired && (r.approved ==> s.securityVerdict == Some(Reviewer.HighRisk))
    case Suspended =>
      OnBudget(s, 4) && !s.approvalRequired && !r.approved && s.securityVerdict == Some(Reviewer.HighRisk)
    case At(Verification) => OnBudget(s, 4) && GatePassed(s, r.approved)
    case At(FormatReport) => OnBudget(s, 5) && GatePassed(s, r.approved)
    case At(CostExhausted) => s.costExhausted && !r.approved && exists k: nat | k <= 3 :: Progress(s, k)
    case Finished => EndState(s, r.approved)
    case Crashed(_) => true
  }

  lemma StartIsInv(thread: string, logPath: string, traceId: Option<string>)
    ensures RunInv(Pipeline.Start(thread, logPath, traceId))
  {
  }

  lemma ResumeKeepsInv(r: Run)
    requires RunInv(r) && r.phase.Suspended?
    ensures RunInv(Resume(r))
  {
  }

  // ------------------------------------------------------------ preservation

  /** The budget flag alone moves nothing else. */
  lemma FlagKeepsProgress(s: AgentState, k: nat)
    requires k <= 5 && Progress(s, k)
    ensures Progress(Merge(s, BUDGET_FLAG), k)
  {
    assert s.agentTrace + [] == s.agentTrace;
  }

  /** A tripped guard sends any of the calling nodes to the abort node. */
  lemma TripKeepsInv(r: Run, node: Node, n: NodeRun, k: nat)
    requires k <= 3 && Progress(r.state, k) && !r.approved && n.end == Commit(BUDGET_FLAG)
    requires node in {Diagnosis, Supervisor, CodeFixer, InfraSre, SecurityReviewer}
    ensures RunInv(Settle(r, node, n).run)
  {
    FlagKeepsProgress(r.state, k);
  }

  /** A delivered artifact goes to the reviewer. */
  lemma DeliveryKeepsInv(r: Run, node: Node, n: NodeRun, artifact: string)
    requires OnBudget(r.state, 2) && Specialist(node, r.state) && !r.approved
    requires n.end == Deliver(node, artifact)
    ensures RunInv(Settle(r, node, n).run)
  {
  }

  lemma DispatchKeepsInv(h: Host, r: Run, g: CostGuard.GuardState, i: Input)
    requires RunInv(r) && r.phase == At(Dispatch)
    ensures RunInv(Step(h, r, g, i).run)
  {
  }

  lemma ParseFailureEnds(r: Run, n: NodeRun, message: string)
    requires OnBudget(r.state, 0) && !r.approved && n.end == ParseFailure(message) && message != ""
    ensures RunInv(Settle(r, ParseLog, n).run)
  {
  }

  lemma ParseEnd(s: AgentState, i: Input) returns (message: string)
    requires !i.file.Parsed? && !i.file.Unreadable?
    ensures RunParseLog(s, i) == ParseFailure(message) && message != ""
  {
    match i.file
    case Missing => message := "Log file not found: " + s.logPath;
    case NotJson(detail) => message := "Invalid JSON in " + detail;
    case Lacks(fields) => message := "Missing required fields in " + fields;
  }

  lemma ParseLogKeepsInv(h: Host, r: Run, g: CostGuard.GuardState, i: Input)
    requires RunInv(r) && r.phase == At(ParseLog)
    ensures RunInv(Step(h, r, g, i).run)
  {
    if !i.file.Parsed? && !i.file.Unreadable? {
      var message := ParseEnd(r.state, i);
      ParseFailureEnds(r, NodeRun(RunParseLog(r.state, i), g, []), message);
    }
  }

  lemma DiagnosisKeepsInv(h: Host, r: Run, g: CostGuard.GuardState, i: Input)
    requires RunInv(r) && r.phase == At(Diagnosis)
    ensures RunInv(Step(h, r, g, i).run)
  {
    if Complete(g, r.state.traceId, i).end.OverBudget? {
      TripKeepsInv(r, Diagnosis, RunDiagnosis(h, r.state, g, i), 0);
    } else {
      assert "CODE" == CATEGORIES[0];
    }
  }

  lemma SupervisorKeepsInv(h: Host, r: Run, g: CostGuard.GuardState, i: Input)
    requires RunInv(r) && r.phase == At(Supervisor)
    ensures RunInv(Step(h, r, g, i).run)
  {
    var call := Complete(g, r.state.traceId, i);
    if call.end.OverBudget? {
      TripKeepsInv(r, Supervisor, RunSupervisor(h, r.state, g, i), 1);
    } else if call.end.Answer? {
      var (name, rationale) := ParseRouting(h.decode(call.end.content));
      RouteKeepsInv(r, RunSupervisor(h, r.state, g, i), name, rationale);
    }
  }

  lemma RouteKeepsInv(r: Run, n: NodeRun, name: string, rationale: string)
    requires OnBudget(r.state, 1) && !r.approved && (name == CODE_FIXER || name == INFRA_SRE)
    requires n.end == Commit(Update(specialist := Set(Some(name)), routingDecision := Set(Some(rationale)),
                                    agentTrace := [SupervisorAgent]))
    ensures RunInv(Settle(r, Supervisor, n).run)
  {
  }

  lemma SpecialistKeepsInv(h: Host, r: Run, g: CostGuard.GuardState, i: Input)
    requires RunInv(r) && (r.phase == At(CodeFixer) || r.phase == At(InfraSre))
    ensures RunInv(Step(h, r, g, i).run)
  {
    var node := r.phase.node;
    var n := RunSpecialist(h, node, r.state, g, i);
    CallingEnds(h, node, r.state, g, i);
    SpecialistEndKeepsInv(r, node, n);
  }

  ghost predicate SpecialistEnd(node: Node, end: NodeEnd) {
    || end == Commit(BUDGET_FLAG)
    || (exists artifact :: end == Deliver(node, artifact))
    || end.Raise? || end.CallAgain?
  }

  lemma CallingEnds(h: Host, node: Node, s: AgentState, g: CostGuard.GuardState, i: Input)
    ensures SpecialistEnd(node, RunSpecialist(h, node, s, g, i).end)
    ensures SpecialistEnd(node, RunRetry(node, s, g, i).end)
    ensures !RunRetry(node, s, g, i).end.CallAgain?
  {
  }

  lemma SpecialistEndKeepsInv(r: Run, node: Node, n: NodeRun)
    requires OnBudget(r.state, 2) && Specialist(node, r.state) && !r.approved
    requires SpecialistEnd(node, n.end)
    ensures RunInv(Settle(r, node, n).run)
  {
    if n.end == Commit(BUDGET_FLAG) {
      TripKeepsInv(r, node, n, 2);
    } else if artifact :| n.end == Deliver(node, artifact) {
      DeliveryKeepsInv(r, node, n, artifact);
    }
  }

  lemma RetryKeepsInv(h: Host, r: Run, g: CostGuard.GuardState, i: Input)
    requires RunInv(r) && r.phase.Retrying?
    ensures RunInv(Step(h, r, g, i).run)
  {
    CallingEnds(h, r.phase.node, r.state, g, i);
    SpecialistEndKeepsInv(r, r.phase.node, RunRetry(r.phase.node, r.state, g, i));
  }

  lemma ReviewerKeepsInv(h: Host, r: Run, g: CostGuard.GuardState, i: Input)
    requires RunInv(r) && r.phase == At(SecurityReviewer)
    ensures RunInv(Step(h, r, g, i).run)
  {
    var n := RunReviewer(h, r.state, g, i);
    if n.end == Commit(BUDGET_FLAG) {
      TripKeepsInv(r, SecurityReviewer, n, 3);
    } else if verdict :|
      n.end == Commit(Update(securityVerdict := Set(Some(verdict)), agentTrace := [SecurityReviewerAgent])) {
      VerdictKeepsInv(r, n, verdict);
    }
  }

  lemma VerdictKeepsInv(r: Run, n: NodeRun, verdict: Reviewer.Verdict)
    requires OnBudget(r.state, 3) && !r.approved
    requires n.end == Commit(Update(securityVerdict := Set(Some(verdict)),
                                    agentTrace := [SecurityReviewerAgent]))
    ensures RunInv(Settle(r, SecurityReviewer, n).run)
  {
  }

  lemma GateKeepsInv(h: Host, r: Run, g: CostGuard.GuardState, i: Input)
    requires RunInv(r) && r.phase == At(SecurityGate)
    ensures RunInv(Step(h, r, g, i).run)
  {
    assert r.state.agentTrace + [] == r.state.agentTrace;
  }

  lemma VerificationKeepsInv(h: Host, r: Run, g: CostGuard.GuardState, i: Input)
    requires RunInv(r) && r.phase == At(Verification)
    ensures RunInv(Step(h, r, g, i).run)
  {
    if Verifier.Outcome(h.compile, r.state.fixArtifact, i.sandbox).Report? {
      Verifier.OneOfResultAndError(h.compile, r.state.fixArtifact, i.sandbox);
    }
  }

  lemma ReportKeepsInv(h: Host, r: Run, g: CostGuard.GuardState, i: Input)
    requires RunInv(r) && r.phase == At(FormatReport)
    ensures RunInv(Step(h, r, g, i).run)
  {
    assert r.state.agentTrace + [] == r.state.agentTrace;
  }

  lemma AbortKeepsInv(h: Host, r: Run, g: CostGuard.GuardState, i: Input)
    requires RunInv(r) && r.phase == At(CostExhausted)
    ensures RunInv(Step(h, r, g, i).run)
  {
    var k: nat :| k <= 3 && Progress(r.state, k);
    assert Step(h, r, g, i).run.state.agentTrace == Agents(r.state.specialist, k) + [CostGuardTriggered];
  }

  lemma StepKeepsInv(h: Host, r: Run, g: CostGuard.GuardState, i: Input)
    requires RunInv(r)
    ensures RunInv(Step(h, r, g, i).run)
  {
    match r.phase
    case Retrying(_, _) => RetryKeepsInv(h, r, g, i);
    case At(Dispatch) => DispatchKeepsInv(h, r, g, i);
    case At(ParseLog) => ParseLogKeepsInv(h, r, g, i);
    case At(Diagnosis) => DiagnosisKeepsInv(h, r, g, i);
    case At(Supervisor) => SupervisorKeepsInv(h, r, g, i);
    case At(CodeFixer) => SpecialistKeepsInv(h, r, g, i);
    case At(InfraSre) => SpecialistKeepsInv(h, r, g, i);
    case At(SecurityReviewer) => ReviewerKeepsInv(h, r, g, i);
    case At(CostExhausted) => AbortKeepsInv(h, r, g, i);
    case At(SecurityGate) => GateKeepsInv(h, r, g, i);
    case At(Verification) => VerificationKeepsInv(h, r, g, i);
    case At(FormatReport) => ReportKeepsInv(h, r, g, i);
    case _ =>
  }

  lemma {:induction false} FollowKeepsInv(h: Host, r: Run, moments: seq<Moment>)
    requires RunInv(r)
    ensures RunInv(Follow(h, r, moments).run)
    decreases |moments|
  {
    if moments != [] {
      var (g, i) := moments[0];
      StepKeepsInv(h, r, g, i);
      FollowKeepsInv(h, Step(h, r, g, i).run, moments[1..]);
    }
  }

  // -------------------------------------------------------- shapes of a trace

  /** The prefix of the agent order that a run has gone through, with one specialist. */
  ghost predicate IsPrefixOfAgents(trace: seq<Entry>, k: nat)
    requires k <= 5
  {
    trace == Agents(Some(CODE_FIXER), k) || trace == Agents(Some(INFRA_SRE), k)
  }

  /** A run that ended without an uncaught exception left an empty trace after a parse
      error, all five agents with one specialist and a report, or at most three of them
      followed by the budget mark and no result; a suspended one has exactly the first
      four. */
  ghost predicate TakesShape(r: Run) {
    && (r.phase.Suspended? ==>
          IsPrefixOfAgents(r.state.agentTrace, 4) && r.state.executionResult.None?
          && r.state.securityVerdict == Some(Reviewer.HighRisk) && PipelineResult(r).None?)
    && (r.phase.Finished? ==>
          || (r.state.agentTrace == [] && r.state.parseError.Some? && PipelineResult(r).None?)
          || (IsPrefixOfAgents(r.state.agentTrace, 5) && PipelineResult(r).Some?
              && (r.state.executionResult.Some? <==> r.state.executionError.None?))
          || (&& (exists k: nat, p | k <= 3 :: IsPrefixOfAgents(p, k)
                    && r.state.agentTrace == p + [CostGuardTriggered])
              && r.state.executionResult.None? && PipelineResult(r).None?))
  }

  lemma InvTakesShape(r: Run)
    requires RunInv(r)
    ensures TakesShape(r)
  {
    SpecialistIsOne(r.state.specialist, 4);
    SpecialistIsOne(r.state.specialist, 5);
    if r.phase.Finished? && r.state.costExhausted {
      var k: nat :| k <= 3 && r.state.agentTrace == Agents(r.state.specialist, k) + [CostGuardTriggered];
      SpecialistIsOne(r.state.specialist, k);
    }
  }

  /** The first segment of a run on a fresh thread. */
  lemma TraceShapes(h: Host, thread: string, logPath: string, traceId: Option<string>, moments: seq<Moment>)
    ensures TakesShape(Follow(h, Pipeline.Start(thread, logPath, traceId), moments).run)
  {
    StartIsInv(thread, logPath, traceId);
    FollowKeepsInv(h, Pipeline.Start(thread, logPath, traceId), moments);
    InvTakesShape(Follow(h, Pipeline.Start(thread, logPath, traceId), moments).run);
  }

  lemma SpecialistIsOne(specialist: Option<string>, k: nat)
    requires k <= 5
    ensures IsPrefixOfAgents(Agents(specialist, k), k)
  {
  }

  /** The router after the supervisor always finds an edge. */
  lemma RouterIsTotal(h: Host, r: Run, g: CostGuard.GuardState, i: Input)
    requires RunInv(r) && r.phase == At(Supervisor)
    ensures var s := Step(h, r, g, i).run;
            s.phase.At? ==>
              && RouteToSpecialist(s.state) in SPECIALIST_EDGES
              && s.phase == At(SPECIALIST_EDGES[RouteToSpecialist(s.state)])
    ensures RunSupervisor(h, r.state, g, i).end.Commit? ==> Step(h, r, g, i).run.phase.At?
  {
    SupervisorKeepsInv(h, r, g, i);
  }
}
