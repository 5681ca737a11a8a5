/** The one way in which a job that reads "completed" comes to read "failed". */
module GatewayRace {
  import opened Prelude
  import opened Pipeline
  import opened PipelineProofs
  import opened Gateway
  import opened GatewayProofs
  import CostGuard
  import Reviewer
  import Verifier

  // -------------------------------------------------------- when it can happen

  ghost predicate Untouched(d: Desk, id: string) {
    id !in d.sidecars && id !in d.parked && id !in d.resumed
  }

  /** Every id submitted once: nothing is on file for a job before its run has got there. */
  ghost predicate Once(d: Desk) {
    && (forall i, j | 0 <= i < j < |d.queue| :: d.queue[i].jobId != d.queue[j].jobId)
    && (forall i | 0 <= i < |d.queue| :: Untouched(d, d.queue[i].jobId))
    && (d.current.Some? ==>
          var Work(job, run) := d.current.value;
          && (forall i | 0 <= i < |d.queue| :: d.queue[i].jobId != job.jobId)
          && (run.phase.Active() ==> Untouched(d, job.jobId))
          && (!run.phase.Suspended? ==> job.jobId !in d.parked && job.jobId !in d.resumed)
          && (!run.phase.Suspended? && job.jobId in d.sidecars ==> FailureOf(run).None?))
  }

  /** The action does not submit an id a second time. */
  predicate SubmitsOnce(d: Desk, a: Action) {
    a.Ingest? && JobIdFor(a.header, a.token).Some? ==> JobIdFor(a.header, a.token).value !in d.accepted
  }

  predicate NoReuse(h: Host, durable: bool, d: Desk, actions: seq<Action>)
    decreases |actions|
  {
    actions == [] || (SubmitsOnce(d, actions[0])
                      && NoReuse(h, durable, Act(h, durable, d, actions[0]), actions[1..]))
  }

  lemma IngestKeepsOnce(d: Desk, header: Option<string>, token: string, alert: Alert)
    requires DeskInv(d) && Once(d) && SubmitsOnce(d, Ingest(header, token, alert))
    ensures Once(Ingested(d, header, token, alert))
  {
    var e := Ingested(d, header, token, alert);
    forall i | 0 <= i < |d.queue|
      ensures d.queue[i].jobId in d.accepted && e.queue[i] == d.queue[i]
    {
      assert d.queue[i] in d.queue;
    }
  }

  lemma TakeKeepsOnce(d: Desk)
    requires DeskInv(d) && Once(d)
    ensures Once(Taken(d))
  {
  }

  /** What a step of an active run may leave behind, if it had left nothing before. */
  ghost predicate FirstTraces(d: Desk, e: Desk, id: string, one: Stepped) {
    && e.(guard := d.guard, sidecars := d.sidecars, parked := d.parked) == d
    && (forall other | other != id ::
          && (other in e.sidecars <==> other in d.sidecars)
          && (other in e.parked <==> other in d.parked))
    && (id in e.parked ==> one.run.phase.Suspended?)
    && (id in e.sidecars ==> FailureOf(one.run).None? && one.run.phase.Finished?)
  }

  lemma StepLeavesFirstTraces(durable: bool, d: Desk, r: Run, one: Stepped)
    requires Untouched(d, r.thread) && one.run.thread == r.thread
    requires ReportOf(one.events).Some? ==> one.run.phase.Finished? && one.run.state.reportPath.Some?
    requires RunInv(one.run)
    ensures FirstTraces(d, Noted(durable, d, r, one), r.thread, one)
  {
  }

  lemma WorkedKeepsOnce(h: Host, durable: bool, d: Desk, i: Input)
    requires DeskInv(d) && Once(d)
    ensures Once(Worked(h, durable, d, i))
  {
    if d.current.Some? && d.current.value.run.phase.Active() {
      var run := d.current.value.run;
      var one := Step(h, run, d.guard, i);
      StepReports(h, run, d.guard, i);
      StepLeavesFirstTraces(durable, d, run, one);
      ActiveWorkKeepsOnce(d, Noted(durable, d, run, one), one);
    } else {
      IdleWork(h, durable, d, i);
    }
  }

  lemma IdleWork(h: Host, durable: bool, d: Desk, i: Input)
    requires d.current.Some? ==> !d.current.value.run.phase.Active()
    ensures Worked(h, durable, d, i) == d
  {
  }

  lemma ActiveWorkKeepsOnce(d: Desk, e: Desk, one: Stepped)
    requires Once(d) && d.current.Some? && d.current.value.run.phase.Active()
    requires FirstTraces(d, e, d.current.value.job.jobId, one)
    ensures Once(e.(current := Some(d.current.value.(run := one.run))))
  {
  }

  /** A resumed run belongs to a job whose own run is suspended or gone. */
  lemma ResumedIsElsewhere(d: Desk, id: string)
    requires Once(d) && id in d.resumed
    ensures forall i | 0 <= i < |d.queue| :: d.queue[i].jobId != id
    ensures d.current.Some? && d.current.value.job.jobId == id ==> d.current.value.run.phase.Suspended?
  {
  }

  lemma ResumeWorkedKeepsOnce(h: Host, durable: bool, d: Desk, id: string, k: nat, i: Input)
    requires DeskInv(d) && Once(d)
    ensures Once(ResumeWorked(h, durable, d, id, k, i))
  {
    if id in d.resumed && k < |d.resumed[id]| {
      ResumedIsElsewhere(d, id);
      var run := d.resumed[id][k];
      var one := Step(h, run, d.guard, i);
      StepReports(h, run, d.guard, i);
      ResumeNotedKeepsOnce(durable, d, run, id, d.resumed[id][k := one.run], one);
    }
  }

  lemma ResumeNotedKeepsOnce(durable: bool, d: Desk, r: Run, id: string, runs: seq<Run>, one: Stepped)
    requires Once(d) && id in d.resumed && r.thread == id && one.run.thread == id
    requires forall i | 0 <= i < |d.queue| :: d.queue[i].jobId != id
    requires d.current.Some? && d.current.value.job.jobId == id ==> d.current.value.run.phase.Suspended?
    ensures Once(Noted(durable, d, r, one).(resumed := d.resumed[id := runs]))
  {
  }

  lemma ActKeepsOnce(h: Host, durable: bool, d: Desk, a: Action)
    requires DeskInv(d) && Once(d) && SubmitsOnce(d, a)
    ensures Once(Act(h, durable, d, a))
  {
    match a
    case Ingest(header, token, alert) => IngestKeepsOnce(d, header, token, alert);
    case Take => TakeKeepsOnce(d);
    case Advance(i) => WorkedKeepsOnce(h, durable, d, i);
    case Close => CloseKeepsOnce(d);
    case Reopen(id) => ReopenKeepsOnce(d, id);
    case AdvanceResumed(id, k, i) => ResumeWorkedKeepsOnce(h, durable, d, id, k, i);
    case Restart(_) =>
  }

  lemma CloseKeepsOnce(d: Desk)
    requires Once(d)
    ensures Once(Closed(d))
  {
  }

  lemma ReopenKeepsOnce(d: Desk, id: string)
    requires Once(d)
    ensures Once(Reopened(d, id))
  {
  }

  lemma {:induction false} HistoryKeepsOnce(h: Host, durable: bool, d: Desk, actions: seq<Action>)
    requires DeskInv(d) && Once(d) && NoReuse(h, durable, d, actions)
    ensures Once(History(h, durable, d, actions))
    decreases |actions|
  {
    if actions != [] {
      ActKeepsInv(h, durable, d, actions[0]);
      ActKeepsOnce(h, durable, d, actions[0]);
      HistoryKeepsOnce(h, durable, Act(h, durable, d, actions[0]), actions[1..]);
    }
  }

  lemma OnlyCloseFails(h: Host, durable: bool, d: Desk, a: Action, id: string)
    requires Reads(d, id, Completed) && Reads(Act(h, durable, d, a), id, Status.Failed)
    ensures a == Close && d.current.Some? && d.current.value.job.jobId == id
    ensures !d.current.value.run.phase.Active() && FailureOf(d.current.value.run).Some?
  {
  }

  /** When no id is submitted twice, a job that reads "completed" comes to read "failed"
      exactly when the worker closes its suspended run after a resumption has reported. */
  lemma CompletedIsLostIff(h: Host, durable: bool, g: CostGuard.GuardState, actions: seq<Action>, a: Action, id: string)
    requires NoReuse(h, durable, Empty(g), actions)
    ensures var d := History(h, durable, Empty(g), actions);
            Reads(d, id, Completed) ==>
              (Reads(Act(h, durable, d, a), id, Status.Failed)
               <==> && a == Close && d.current.Some? && d.current.value.job.jobId == id
                    && d.current.value.run.phase.Suspended?)
  {
    EmptyIsInv(g);
    HistoryKeepsInv(h, durable, Empty(g), actions);
    HistoryKeepsOnce(h, durable, Empty(g), actions);
    var d := History(h, durable, Empty(g), actions);
    if Reads(d, id, Completed) {
      LossIsClosure(h, durable, d, a, id);
    }
  }

  lemma LossIsClosure(h: Host, durable: bool, d: Desk, a: Action, id: string)
    requires DeskInv(d) && Once(d) && Reads(d, id, Completed)
    ensures Reads(Act(h, durable, d, a), id, Status.Failed)
       <==> a == Close && d.current.Some? && d.current.value.job.jobId == id
            && d.current.value.run.phase.Suspended?
  {
    if Reads(Act(h, durable, d, a), id, Status.Failed) {
      OnlyCloseFails(h, durable, d, a, id);
    } else if d.current.Some? && d.current.value.run.phase.Suspended? {
      SuspendedFails(d.current.value.run);
    }
  }

  // ---------------------------------------------------------- that it does happen

  function ResumeSteps(id: string, i0: Input, i1: Input, i2: Input): seq<Action> {
    [Reopen(id), AdvanceResumed(id, 0, i0), AdvanceResumed(id, 0, i1), AdvanceResumed(id, 0, i2)]
  }

  /** The sandbox and the report file do their part. */
  predicate GoesThrough(h: Host, r: Run, i1: Input, i2: Input) {
    Verifier.Outcome(h.compile, r.state.fixArtifact, i1.sandbox).Report? && i2.report.Written?
  }

  lemma GateStep(h: Host, r: Run, g: CostGuard.GuardState, i: Input)
    requires RunInv(r) && r.phase == At(SecurityGate) && r.approved
    ensures var one := Step(h, r, g, i);
            && one.run.phase == At(Verification) && one.run.thread == r.thread && RunInv(one.run)
            && one.run.state.fixArtifact == r.state.fixArtifact && one.run.approved
  {
    StepKeepsInv(h, r, g, i);
  }

  lemma VerifierStep(h: Host, r: Run, g: CostGuard.GuardState, i: Input)
    requires RunInv(r) && r.phase == At(Verification)
    requires Verifier.Outcome(h.compile, r.state.fixArtifact, i.sandbox).Report?
    ensures var one := Step(h, r, g, i);
            && one.run.phase == At(FormatReport) && one.run.thread == r.thread && RunInv(one.run)
            && one.run.state.fixArtifact == r.state.fixArtifact && one.run.approved == r.approved
  {
    StepKeepsInv(h, r, g, i);
  }

  lemma ReportStep(h: Host, r: Run, g: CostGuard.GuardState, i: Input)
    requires RunInv(r) && r.phase == At(FormatReport) && i.report.Written?
    ensures ReportOf(Step(h, r, g, i).events).Some?
  {
  }

  lemma ResumedStep(h: Host, durable: bool, d: Desk, id: string, i: Input)
    requires id in d.resumed && |d.resumed[id]| == 1 && d.resumed[id][0].thread == id
    ensures var e := Act(h, durable, d, AdvanceResumed(id, 0, i));
            var one := Step(h, d.resumed[id][0], d.guard, i);
            && id in e.resumed && e.resumed[id] == [one.run] && e.current == d.current
            && (ReportOf(one.events).Some? ==> Reads(e, id, Completed))
  {
  }

  /** A resumed run that goes through, from its gate to its report. */
  ghost predicate Ready(d: Desk, id: string, node: Node, artifact: Option<string>) {
    && id in d.resumed && |d.resumed[id]| == 1
    && (var r := d.resumed[id][0];
        && r.thread == id && RunInv(r) && r.phase == At(node) && r.approved
        && r.state.fixArtifact == artifact)
  }

  lemma FromGate(h: Host, durable: bool, d: Desk, id: string, artifact: Option<string>, i: Input)
    requires Ready(d, id, SecurityGate, artifact)
    ensures var e := Act(h, durable, d, AdvanceResumed(id, 0, i));
            Ready(e, id, Verification, artifact) && e.current == d.current
  {
    GateStep(h, d.resumed[id][0], d.guard, i);
    ResumedStep(h, durable, d, id, i);
  }

  lemma FromVerifier(h: Host, durable: bool, d: Desk, id: string, artifact: Option<string>, i: Input)
    requires Ready(d, id, Verification, artifact)
    requires Verifier.Outcome(h.compile, artifact, i.sandbox).Report?
    ensures var e := Act(h, durable, d, AdvanceResumed(id, 0, i));
            Ready(e, id, FormatReport, artifact) && e.current == d.current
  {
    VerifierStep(h, d.resumed[id][0], d.guard, i);
    ResumedStep(h, durable, d, id, i);
  }

  lemma FromReport(h: Host, durable: bool, d: Desk, id: string, artifact: Option<string>, i: Input)
    requires Ready(d, id, FormatReport, artifact) && i.report.Written?
    ensures var e := Act(h, durable, d, AdvanceResumed(id, 0, i));
            Reads(e, id, Completed) && e.current == d.current
  {
    ReportStep(h, d.resumed[id][0], d.guard, i);
    ResumedStep(h, durable, d, id, i);
  }

  lemma Reopening(h: Host, durable: bool, d: Desk, id: string)
    requires id in d.parked && d.parked[id].phase.Suspended? && RunInv(d.parked[id])
    requires d.parked[id].thread == id && id !in d.resumed
    ensures var e := Act(h, durable, d, Reopen(id));
            Ready(e, id, SecurityGate, d.parked[id].state.fixArtifact) && e.current == d.current
  {
    ResumeKeepsInv(d.parked[id]);
  }

  lemma ResumeReports(h: Host, durable: bool, d: Desk, id: string, i0: Input, i1: Input, i2: Input)
    requires id in d.parked && d.parked[id].phase.Suspended? && RunInv(d.parked[id])
    requires d.parked[id].thread == id && id !in d.resumed && GoesThrough(h, d.parked[id], i1, i2)
    ensures var e := History(h, durable, d, ResumeSteps(id, i0, i1, i2));
            Reads(e, id, Completed) && e.current == d.current
  {
    var artifact := d.parked[id].state.fixArtifact;
    FourActions(h, durable, d, ResumeSteps(id, i0, i1, i2));
    Reopening(h, durable, d, id);
    var d0 := Act(h, durable, d, Reopen(id));
    FromGate(h, durable, d0, id, artifact, i0);
    var d1 := Act(h, durable, d0, AdvanceResumed(id, 0, i0));
    FromVerifier(h, durable, d1, id, artifact, i1);
    var d2 := Act(h, durable, d1, AdvanceResumed(id, 0, i1));
    FromReport(h, durable, d2, id, artifact, i2);
  }

  lemma FourActions(h: Host, durable: bool, d: Desk, actions: seq<Action>)
    requires |actions| == 4
    ensures History(h, durable, d, actions)
         == Act(h, durable, Act(h, durable, Act(h, durable, Act(h, durable, d, actions[0]), actions[1]),
                                actions[2]), actions[3])
  {
    var d1 := Act(h, durable, d, actions[0]);
    var d2 := Act(h, durable, d1, actions[1]);
    var d3 := Act(h, durable, d2, actions[2]);
    assert History(h, durable, d, actions) == History(h, durable, d1, actions[1..]);
    assert History(h, durable, d1, actions[1..]) == History(h, durable, d2, actions[1..][1..]);
    assert actions[1..][1..] == [actions[2], actions[3]];
    assert [actions[2], actions[3]][1..] == [actions[3]];
    OneAction(h, durable, d3, actions[3]);
  }

  predicate WaitsForApproval(d: Desk) {
    d.current.Some? &&
      var Work(job, run) := d.current.value;
      && run.phase.Suspended? && job.jobId in d.parked && d.parked[job.jobId] == run
      && job.jobId !in d.resumed
  }

  /** With a durable store every HIGH_RISK run of the worker comes to that point. */
  lemma GateParks(h: Host, d: Desk, i: Input)
    requires DeskInv(d) && Once(d) && d.current.Some?
    requires d.current.value.run.phase == At(SecurityGate) && !d.current.value.run.approved
    requires d.current.value.run.state.securityVerdict == Some(Reviewer.HighRisk)
    ensures WaitsForApproval(Worked(h, true, d, i)) && DeskInv(Worked(h, true, d, i))
  {
    WorkedKeepsInv(h, true, d, i);
  }

  ghost predicate Resumable(d: Desk, id: string, run: Run) {
    && id in d.parked && d.parked[id] == run && run.phase.Suspended? && RunInv(run) && run.thread == id
    && id !in d.resumed
  }

  lemma CloseThenResume(h: Host, d: Desk, id: string, run: Run, i0: Input, i1: Input, i2: Input)
    requires Resumable(d, id, run) && GoesThrough(h, run, i1, i2)
    ensures Reads(History(h, true, d, [Close] + ResumeSteps(id, i0, i1, i2)), id, Completed)
  {
    HistoryConcat(h, true, d, [Close], ResumeSteps(id, i0, i1, i2));
    OneAction(h, true, d, Close);
    ResumeReports(h, true, Closed(d), id, i0, i1, i2);
  }

  lemma ResumeThenClose(h: Host, d: Desk, id: string, run: Run, i0: Input, i1: Input, i2: Input)
    requires Resumable(d, id, run) && GoesThrough(h, run, i1, i2)
    requires d.current.Some? && d.current.value.run == run && d.current.value.job.jobId == id
    ensures Reads(History(h, true, d, ResumeSteps(id, i0, i1, i2) + [Close]), id, Status.Failed)
  {
    HistoryConcat(h, true, d, ResumeSteps(id, i0, i1, i2), [Close]);
    ResumeReports(h, true, d, id, i0, i1, i2);
    OneAction(h, true, History(h, true, d, ResumeSteps(id, i0, i1, i2)), Close);
    SuspendedFails(run);
  }

  lemma SuspendedFails(r: Run)
    requires RunInv(r) && r.phase.Suspended?
    ensures FailureOf(r).Some?
  {
  }

  /** Wherever a run has just been suspended, the order of the last two events decides: if
      the worker closes the job first, a resumption that goes through leaves it
      "completed"; if the resumption comes first, the worker leaves it "failed". */
  lemma OrderDecides(h: Host, d: Desk, i0: Input, i1: Input, i2: Input)
    requires DeskInv(d) && WaitsForApproval(d) && GoesThrough(h, d.current.value.run, i1, i2)
    ensures var id := d.current.value.job.jobId;
            var resume := ResumeSteps(id, i0, i1, i2);
            && Reads(History(h, true, d, [Close] + resume), id, Completed)
            && Reads(History(h, true, d, resume + [Close]), id, Status.Failed)
  {
    var Work(job, run) := d.current.value;
    CloseThenResume(h, d, job.jobId, run, i0, i1, i2);
    ResumeThenClose(h, d, job.jobId, run, i0, i1, i2);
  }
}
