/** What the producers promise of an artifact, read off whole runs: it is a stripped reply,
    and either it compiles or the one retry has been spent on it. */
module PipelineProducer {
  import opened Prelude
  import opened Pipeline
  import CostGuard
  import Fence
  import Normalizer
  import PipelineBounds
  import Text

  /** The artifact after `n` calls of diagnosis, supervisor and producer. */
  ghost predicate Produced(h: Host, s: AgentState, n: int) {
    && s.fixArtifact.Some? && Text.Trimmed(s.fixArtifact.value)
    && (n == 4 || (n == 3 && h.compile(s.fixArtifact.value) == Normalizer.Compiles))
  }

  /** The calls a run has made when it stands at `r`, and what they have brought. */
  ghost predicate Tally(h: Host, r: Run, n: nat) {
    && (r.phase.Active() || r.phase.Suspended? ==> r.state.reportPath.None?)
    && (n > 0 ==> IsTraceId(r.state.traceId.GetOr("")))
    && match r.phase
       case At(Supervisor) => n == 1
       case At(CodeFixer) => n == 2
       case At(InfraSre) => n == 2
       case Retrying(node, first) =>
         n == 3 && (node == CodeFixer || node == InfraSre) && h.compile(first).SyntaxError?
       case At(SecurityReviewer) => Produced(h, r.state, n)
       case At(CostExhausted) => true
       case At(Dispatch) => n == 0
       case At(ParseLog) => n == 0
       case At(Diagnosis) => n == 0
       case Crashed(_) => true
       case Finished => r.state.reportPath.Some? ==> Produced(h, r.state, n - 1)
       case _ => Produced(h, r.state, n - 1)
  }

  lemma CallTally(g: CostGuard.GuardState, traceId: Option<string>, i: Input)
    ensures var call := Complete(g, traceId, i);
            && (call.attempts > 0 ==> IsTraceId(traceId.GetOr("")))
            && PipelineBounds.Calls(CallEvents(call)) == (if call.attempts > 0 then 1 else 0)
            && (!call.end.Blew? ==> call.attempts > 0)
  {
    var call := Complete(g, traceId, i);
    if call.end.OverBudget? {
      assert CallEvents(call)[1..] == [Tripped];
      assert [Tripped][1..] == [];
    } else if call.attempts > 0 {
      assert CallEvents(call)[1..] == [];
    }
  }

  lemma DispatchTally(h: Host, r: Run, g: CostGuard.GuardState, i: Input)
    requires Tally(h, r, 0) && r.phase == At(Dispatch)
    ensures Tally(h, Step(h, r, g, i).run, 0) && Step(h, r, g, i).events == []
  {
  }

  lemma ParseLogEnds(s: AgentState, i: Input)
    ensures var end := RunParseLog(s, i);
            end.Raise? || (end.Commit? && end.update.reportPath == Keep && end.update.traceId == Keep)
  {
  }

  lemma ParsedTally(h: Host, r: Run, n: NodeRun)
    requires Tally(h, r, 0) && r.phase == At(ParseLog)
    requires n.end.Raise? || (n.end.Commit? && n.end.update.reportPath == Keep && n.end.update.traceId == Keep)
    ensures Tally(h, Settle(r, ParseLog, n).run, 0)
  {
  }

  lemma ParseLogTally(h: Host, r: Run, g: CostGuard.GuardState, i: Input)
    requires Tally(h, r, 0) && r.phase == At(ParseLog)
    ensures Tally(h, Step(h, r, g, i).run, 0) && Step(h, r, g, i).events == []
  {
    var n := NodeRun(RunParseLog(r.state, i), g, []);
    ParseLogEnds(r.state, i);
    ParsedTally(h, r, n);
    assert Step(h, r, g, i) == Settle(r, ParseLog, n);
  }

  lemma DiagnosisTally(h: Host, r: Run, g: CostGuard.GuardState, i: Input)
    requires Tally(h, r, 0) && r.phase == At(Diagnosis)
    ensures Tally(h, Step(h, r, g, i).run, PipelineBounds.Calls(Step(h, r, g, i).events))
  {
    CallTally(g, r.state.traceId, i);
  }

  lemma SupervisorTally(h: Host, r: Run, g: CostGuard.GuardState, i: Input)
    requires Tally(h, r, 1) && r.phase == At(Supervisor)
    ensures Tally(h, Step(h, r, g, i).run, 1 + PipelineBounds.Calls(Step(h, r, g, i).events))
  {
    CallTally(g, r.state.traceId, i);
  }

  lemma ResumeKeepsTally(h: Host, r: Run, n: nat)
    requires Tally(h, r, n) && r.phase.Suspended?
    ensures Tally(h, Resume(r), n)
  {
  }

  /** A trip and an exception settle any tally. */
  lemma AbortTally(h: Host, r: Run, n: NodeRun, k: nat)
    requires r.phase.Active() && PipelineBounds.CallsModel(r.phase.node)
    requires r.state.reportPath.None? && (k > 0 ==> IsTraceId(r.state.traceId.GetOr("")))
    requires n.end == Commit(BUDGET_FLAG) || n.end.Raise?
    ensures Tally(h, Settle(r, r.phase.node, n).run, k)
  {
  }

  lemma DeliveryTally(h: Host, r: Run, n: NodeRun, artifact: string, k: nat)
    requires r.phase.Active() && (r.phase.node == CodeFixer || r.phase.node == InfraSre)
    requires r.state.reportPath.None? && IsTraceId(r.state.traceId.GetOr(""))
    requires n.end == Deliver(r.phase.node, artifact) && Text.Trimmed(artifact)
    requires k == 4 || (k == 3 && h.compile(artifact) == Normalizer.Compiles)
    ensures Tally(h, Settle(r, r.phase.node, n).run, k)
  {
  }

  /** What a specialist's call can come to. */
  ghost predicate FirstEnd(h: Host, node: Node, n: NodeRun, artifact: string) {
    || n.end == Commit(BUDGET_FLAG) || n.end.Raise?
    || (&& PipelineBounds.Calls(n.events) == 1 && Text.Trimmed(artifact)
        && ((n.end == Deliver(node, artifact) && h.compile(artifact) == Normalizer.Compiles)
            || (n.end == CallAgain(artifact) && h.compile(artifact).SyntaxError?)))
  }

  function Reply(call: Call): string {
    if call.end.Answer? then Fence.StripMarkdownFence(call.end.content) else ""
  }

  lemma SpecialistEnds(h: Host, node: Node, s: AgentState, g: CostGuard.GuardState, i: Input)
    ensures FirstEnd(h, node, RunSpecialist(h, node, s, g, i), Reply(Complete(g, s.traceId, i)))
  {
    CallTally(g, s.traceId, i);
    if Complete(g, s.traceId, i).end.Answer? {
      Fence.StripShrinks(Complete(g, s.traceId, i).end.content);
    }
  }

  lemma RetryEnds(node: Node, s: AgentState, g: CostGuard.GuardState, i: Input)
    ensures var n := RunRetry(node, s, g, i);
            var artifact := Reply(Complete(g, s.traceId, i));
            || n.end == Commit(BUDGET_FLAG) || n.end.Raise?
            || (PipelineBounds.Calls(n.events) == 1 && Text.Trimmed(artifact)
                && n.end == Deliver(node, artifact))
  {
    CallTally(g, s.traceId, i);
    if Complete(g, s.traceId, i).end.Answer? {
      Fence.StripShrinks(Complete(g, s.traceId, i).end.content);
    }
  }

  lemma SpecialistTally(h: Host, r: Run, g: CostGuard.GuardState, i: Input)
    requires Tally(h, r, 2) && (r.phase == At(CodeFixer) || r.phase == At(InfraSre))
    ensures Tally(h, Step(h, r, g, i).run, 2 + PipelineBounds.Calls(Step(h, r, g, i).events))
  {
    var n := RunSpecialist(h, r.phase.node, r.state, g, i);
    var artifact := Reply(Complete(g, r.state.traceId, i));
    SpecialistEnds(h, r.phase.node, r.state, g, i);
    FirstEndTally(h, r, n, artifact);
  }

  lemma FirstEndTally(h: Host, r: Run, n: NodeRun, artifact: string)
    requires Tally(h, r, 2) && (r.phase == At(CodeFixer) || r.phase == At(InfraSre))
    requires FirstEnd(h, r.phase.node, n, artifact)
    ensures var o := Settle(r, r.phase.node, n);
            Tally(h, o.run, 2 + PipelineBounds.Calls(o.events))
  {
    if n.end == Commit(BUDGET_FLAG) || n.end.Raise? {
      AbortTally(h, r, n, 2 + PipelineBounds.Calls(n.events));
    } else if n.end == Deliver(r.phase.node, artifact) {
      DeliveryTally(h, r, n, artifact, 3);
    }
  }

  lemma RetryTally(h: Host, r: Run, g: CostGuard.GuardState, i: Input)
    requires Tally(h, r, 3) && r.phase.Retrying?
    ensures Tally(h, Step(h, r, g, i).run, 3 + PipelineBounds.Calls(Step(h, r, g, i).events))
  {
    var n := RunRetry(r.phase.node, r.state, g, i);
    RetryEnds(r.phase.node, r.state, g, i);
    if n.end == Commit(BUDGET_FLAG) || n.end.Raise? {
      AbortTally(h, r, n, 3 + PipelineBounds.Calls(n.events));
    } else {
      DeliveryTally(h, r, n, Reply(Complete(g, r.state.traceId, i)), 4);
    }
  }

  lemma ReviewerTally(h: Host, r: Run, g: CostGuard.GuardState, i: Input, n: nat)
    requires Tally(h, r, n) && r.phase == At(SecurityReviewer)
    ensures Tally(h, Step(h, r, g, i).run, n + PipelineBounds.Calls(Step(h, r, g, i).events))
  {
    CallTally(g, r.state.traceId, i);
    PipelineBounds.CallEventsShape(g, r.state.traceId, i);
  }

  lemma GateTally(h: Host, r: Run, g: CostGuard.GuardState, i: Input, n: nat)
    requires Tally(h, r, n) && r.phase == At(SecurityGate)
    ensures var o := Step(h, r, g, i);
            Tally(h, o.run, n) && PipelineBounds.Calls(o.events) == 0
  {
  }

  lemma VerifierTally(h: Host, r: Run, g: CostGuard.GuardState, i: Input, n: nat)
    requires Tally(h, r, n) && r.phase == At(Verification)
    ensures var o := Step(h, r, g, i);
            Tally(h, o.run, n) && PipelineBounds.Calls(o.events) == 0
  {
  }

  lemma LastTally(h: Host, r: Run, g: CostGuard.GuardState, i: Input, n: nat)
    requires Tally(h, r, n)
    requires r.phase == At(FormatReport) || r.phase == At(CostExhausted) || !r.phase.Active()
    ensures var o := Step(h, r, g, i);
            Tally(h, o.run, n) && PipelineBounds.Calls(o.events) == 0
  {
  }

  lemma StepTally(h: Host, r: Run, g: CostGuard.GuardState, i: Input, n: nat)
    requires Tally(h, r, n)
    ensures Tally(h, Step(h, r, g, i).run, n + PipelineBounds.Calls(Step(h, r, g, i).events))
  {
    match r.phase
    case At(Dispatch) => DispatchTally(h, r, g, i);
    case At(ParseLog) => ParseLogTally(h, r, g, i);
    case At(Diagnosis) => DiagnosisTally(h, r, g, i);
    case At(Supervisor) => SupervisorTally(h, r, g, i);
    case At(CodeFixer) => SpecialistTally(h, r, g, i);
    case At(InfraSre) => SpecialistTally(h, r, g, i);
    case Retrying(_, _) => RetryTally(h, r, g, i);
    case At(SecurityReviewer) => ReviewerTally(h, r, g, i, n);
    case At(SecurityGate) => GateTally(h, r, g, i, n);
    case At(Verification) => VerifierTally(h, r, g, i, n);
    case _ => LastTally(h, r, g, i, n);
  }

  lemma {:induction false} FollowTally(h: Host, r: Run, moments: seq<Moment>, n: nat)
    requires Tally(h, r, n)
    ensures var t := Follow(h, r, moments);
            Tally(h, t.run, n + PipelineBounds.Calls(t.events))
    decreases |moments|
  {
    if moments != [] {
      var (g, i) := moments[0];
      var one := Step(h, r, g, i);
      StepTally(h, r, g, i, n);
      FollowTally(h, one.run, moments[1..], n + PipelineBounds.Calls(one.events));
      PipelineBounds.CountsAdd(one.events, Follow(h, one.run, moments[1..]).events);
    }
  }

  /** A run that is suspended or has reported made four calls or five under a well-formed
      trace id, and its artifact is trimmed; with four calls, that is without the retry,
      the artifact compiles, so that unless it is empty it will run as it is. */
  ghost predicate KeepsContract(h: Host, r: Run, calls: nat) {
    r.phase.Suspended? || (r.phase.Finished? && r.state.reportPath.Some?) ==>
      && IsTraceId(r.state.traceId.GetOr(""))
      && r.state.fixArtifact.Some? && Text.Trimmed(r.state.fixArtifact.value)
      && (calls == 4 || calls == 5)
      && (calls == 4 && r.state.fixArtifact.value != "" ==>
            Normalizer.Normalize(h.compile, r.state.fixArtifact.value)
            == Normalizer.Normalized(r.state.fixArtifact.value, Normalizer.Verbatim, None))
  }

  lemma TallyKeepsContract(h: Host, r: Run, calls: nat)
    requires Tally(h, r, calls)
    ensures KeepsContract(h, r, calls)
  {
    if r.state.fixArtifact.Some? && Text.Trimmed(r.state.fixArtifact.value) {
      TrimmedStays(r.state.fixArtifact.value);
    }
  }

  /** The first segment of a run. */
  lemma ProducerContract(h: Host, thread: string, logPath: string, traceId: Option<string>,
                         moments: seq<Moment>)
    ensures var Trail(r, events) := Follow(h, Pipeline.Start(thread, logPath, traceId), moments);
            KeepsContract(h, r, PipelineBounds.Calls(events))
  {
    var start := Pipeline.Start(thread, logPath, traceId);
    FollowTally(h, start, moments, 0);
    var t := Follow(h, start, moments);
    TallyKeepsContract(h, t.run, PipelineBounds.Calls(t.events));
  }

  lemma TrimmedStays(s: string)
    requires Text.Trimmed(s)
    ensures Text.Trim(s) == s
  {
    Text.TrimUnique("", s, "");
    assert "" + s + "" == s;
  }

  // -------------------------------------------------------------- the trace id

  predicate KeepsTraceId(n: NodeRun) {
    n.end.Commit? ==> n.end.update.traceId == Keep
  }

  lemma CallingNodeKeepsTraceId(h: Host, r: Run, g: CostGuard.GuardState, i: Input)
    requires r.phase.Active() && (PipelineBounds.CallsModel(r.phase.node) || r.phase.Retrying?)
    ensures KeepsTraceId(PipelineBounds.StepRun(h, r, g, i))
  {
  }

  lemma QuietNodeKeepsTraceId(h: Host, r: Run, g: CostGuard.GuardState, i: Input)
    requires r.phase.At? && !PipelineBounds.CallsModel(r.phase.node)
    requires r.phase.node == Dispatch ==> r.state.traceId.GetOr("") != ""
    ensures KeepsTraceId(PipelineBounds.StepRun(h, r, g, i))
  {
  }

  /** The id an alert was accepted under is the one every call of its run is made with. */
  lemma {:induction false} TraceIdIsThreaded(h: Host, r: Run, moments: seq<Moment>)
    requires r.state.traceId.GetOr("") != ""
    ensures Follow(h, r, moments).run.state.traceId == r.state.traceId
    decreases |moments|
  {
    if moments != [] {
      var (g, i) := moments[0];
      if r.phase.Active() {
        PipelineBounds.StepSettles(h, r, g, i);
        if PipelineBounds.CallsModel(r.phase.node) || r.phase.Retrying? {
          CallingNodeKeepsTraceId(h, r, g, i);
        } else {
          QuietNodeKeepsTraceId(h, r, g, i);
        }
      }
      TraceIdIsThreaded(h, Step(h, r, g, i).run, moments[1..]);
    }
  }
}
