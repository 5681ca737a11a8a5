/** What the gateway's status endpoint and its queue promise, over every history of
    submissions, worker steps, resumptions and restarts. */
module GatewayProofs {
  import opened Prelude
  import opened Pipeline
  import opened PipelineProofs
  import opened Gateway
  import CostGuard
  import PipelineBounds

  // ------------------------------------------------------------ the invariant

  /** Whatever is on file belongs to an id that was accepted. */
  ghost predicate Stores(d: Desk) {
    && (forall id :: id in d.incoming <==> id in d.accepted)
    && (forall id | id in d.sidecars || id in d.resumed :: id in d.accepted)
    && (forall job | job in d.queue :: job.jobId in d.accepted && job.traceId == job.jobId)
    && (d.current.Some? ==>
          d.current.value.job.jobId in d.accepted
          && d.current.value.job.traceId == d.current.value.job.jobId)
  }

  /** The jobs come out of the queue in the order they went in, one at a time. */
  ghost predicate InLine(d: Desk) {
    && d.arrived == d.started + d.queue
    && |d.started| == d.taskDone + (if d.current.Some? then 1 else 0)
    && (d.current.Some? ==> d.started[|d.started| - 1] == d.current.value.job)
  }

  ghost predicate RunOf(d: Desk, id: string, r: Run) {
    id in d.accepted && r.thread == id && RunInv(r)
  }

  ghost predicate Runs(d: Desk) {
    && (d.current.Some? ==> RunOf(d, d.current.value.job.jobId, d.current.value.run))
    && (forall id | id in d.parked :: RunOf(d, id, d.parked[id]) && d.parked[id].phase.Suspended?)
    && (forall id, k | id in d.resumed && 0 <= k < |d.resumed[id]| :: RunOf(d, id, d.resumed[id][k]))
  }

  /** A report that the worker's own run has written is still on file while it is at it. */
  ghost predicate ReportOnFile(d: Desk) {
    d.current.Some? && d.current.value.run.state.reportPath.Some? ==>
      Reads(d, d.current.value.job.jobId, Completed)
  }

  ghost predicate DeskInv(d: Desk) {
    Stores(d) && InLine(d) && Runs(d) && ReportOnFile(d)
  }

  /** Only the last node announces a report, and exactly when its update carries the path. */
  ghost predicate Announces(p: Phase, n: NodeRun) {
    && (ReportOf(n.events).Some? ==>
          && p == At(FormatReport)
          && n.end.Commit? && n.end.update.reportPath == Set(ReportOf(n.events)))
    && (ReportOf(n.events).None? && n.end.Commit? ==> n.end.update.reportPath == Keep)
    && (n.end.Interrupt? ==> n.events == [])
  }

  lemma CallingNodeAnnounces(h: Host, r: Run, g: CostGuard.GuardState, i: Input)
    requires r.phase.Active() && PipelineBounds.CallsModel(r.phase.node)
    ensures Announces(r.phase, PipelineBounds.StepRun(h, r, g, i))
  {
    assert ReportOf(CallEvents(Complete(g, r.state.traceId, i))).None?;
  }

  lemma QuietNodeAnnounces(h: Host, r: Run, g: CostGuard.GuardState, i: Input)
    requires r.phase.At? && !PipelineBounds.CallsModel(r.phase.node)
    ensures Announces(r.phase, PipelineBounds.StepRun(h, r, g, i))
  {
  }

  lemma SettleReports(r: Run, n: NodeRun)
    requires r.phase.Active() && Announces(r.phase, n)
    ensures var one := Settle(r, r.phase.node, n);
            && one.run.thread == r.thread
            && (one.run.state.reportPath.Some? <==> r.state.reportPath.Some? || ReportOf(one.events).Some?)
            && (ReportOf(one.events).Some? ==> one.run.phase.Finished?)
  {
  }

  /** A run has a report path from the moment it files its report. */
  lemma StepReports(h: Host, r: Run, g: CostGuard.GuardState, i: Input)
    requires RunInv(r)
    ensures var one := Step(h, r, g, i);
            && one.run.thread == r.thread && RunInv(one.run)
            && (one.run.state.reportPath.Some? <==> r.state.reportPath.Some? || ReportOf(one.events).Some?)
            && (ReportOf(one.events).Some? ==> one.run.phase.Finished?)
  {
    StepKeepsInv(h, r, g, i);
    if r.phase.Active() {
      PipelineBounds.StepSettles(h, r, g, i);
      if PipelineBounds.CallsModel(r.phase.node) {
        CallingNodeAnnounces(h, r, g, i);
      } else {
        QuietNodeAnnounces(h, r, g, i);
      }
      SettleReports(r, PipelineBounds.StepRun(h, r, g, i));
    }
  }

  /** The stores after a step of a run: one id is touched, and a report leaves it
      completed. */
  ghost predicate NotedFor(d: Desk, e: Desk, r: Run, one: Stepped) {
    && e.(guard := d.guard, sidecars := d.sidecars, parked := d.parked) == d
    && Stores(e)
    && (forall id | id != r.thread :: StatusOf(e, id) == StatusOf(d, id))
    && (Reads(d, r.thread, Completed) || ReportOf(one.events).Some? ==> Reads(e, r.thread, Completed))
    && (forall id | id in e.parked :: RunOf(d, id, e.parked[id]) && e.parked[id].phase.Suspended?)
  }

  lemma NotedIsFor(durable: bool, d: Desk, r: Run, one: Stepped)
    requires Stores(d) && Runs(d) && r.thread in d.accepted && RunOf(d, r.thread, one.run)
    ensures NotedFor(d, Noted(durable, d, r, one), r, one)
  {
  }

  lemma WorkNotedKeepsInv(d: Desk, e: Desk, one: Stepped)
    requires DeskInv(d) && d.current.Some? && RunOf(d, d.current.value.run.thread, one.run)
    requires NotedFor(d, e, d.current.value.run, one)
    requires one.run.state.reportPath.Some? ==>
               d.current.value.run.state.reportPath.Some? || ReportOf(one.events).Some?
    ensures DeskInv(e.(current := Some(d.current.value.(run := one.run))))
  {
  }

  lemma WorkedKeepsInv(h: Host, durable: bool, d: Desk, i: Input)
    requires DeskInv(d)
    ensures DeskInv(Worked(h, durable, d, i))
  {
    if d.current.Some? {
      var run := d.current.value.run;
      var one := Step(h, run, d.guard, i);
      StepReports(h, run, d.guard, i);
      NotedIsFor(durable, d, run, one);
      WorkNotedKeepsInv(d, Noted(durable, d, run, one), one);
    }
  }

  lemma ResumeNotedKeepsInv(d: Desk, e: Desk, id: string, k: nat, one: Stepped)
    requires DeskInv(d) && id in d.resumed && k < |d.resumed[id]| && RunOf(d, id, one.run)
    requires NotedFor(d, e, d.resumed[id][k], one)
    ensures DeskInv(e.(resumed := d.resumed[id := d.resumed[id][k := one.run]]))
  {
    var f := e.(resumed := d.resumed[id := d.resumed[id][k := one.run]]);
    assert Stores(f) && InLine(f) && ReportOnFile(f);
    forall other, j | other in f.resumed && 0 <= j < |f.resumed[other]|
      ensures RunOf(f, other, f.resumed[other][j])
    {
      if other == id && j == k {
      } else {
        assert RunOf(d, other, d.resumed[other][j]);
      }
    }
  }

  lemma ResumeWorkedKeepsInv(h: Host, durable: bool, d: Desk, id: string, k: nat, i: Input)
    requires DeskInv(d)
    ensures DeskInv(ResumeWorked(h, durable, d, id, k, i))
  {
    if id in d.resumed && k < |d.resumed[id]| {
      var run := d.resumed[id][k];
      var one := Step(h, run, d.guard, i);
      StepReports(h, run, d.guard, i);
      NotedIsFor(durable, d, run, one);
      ResumeNotedKeepsInv(d, Noted(durable, d, run, one), id, k, one);
    }
  }

  lemma ActKeepsInv(h: Host, durable: bool, d: Desk, a: Action)
    requires DeskInv(d)
    ensures DeskInv(Act(h, durable, d, a))
  {
    match a
    case Ingest(header, token, alert) => IngestKeepsInv(d, header, token, alert);
    case Take => TakeKeepsInv(d);
    case Advance(i) => WorkedKeepsInv(h, durable, d, i);
    case Close => 
    case Reopen(id) => ReopenKeepsInv(d, id);
    case AdvanceResumed(id, k, i) => ResumeWorkedKeepsInv(h, durable, d, id, k, i);
    case Restart(_) => 
  }

  lemma IngestKeepsInv(d: Desk, header: Option<string>, token: string, alert: Alert)
    requires DeskInv(d)
    ensures DeskInv(Ingested(d, header, token, alert))
  {
  }

  lemma TakeKeepsInv(d: Desk)
    requires DeskInv(d)
    ensures DeskInv(Taken(d))
  {
    if d.current.None? && d.queue != [] {
      assert d.queue == [d.queue[0]] + d.queue[1..];
      var job := d.queue[0];
      StartIsInv(job.traceId, job.logPath, if job.traceId == "" then None else Some(job.traceId));
    }
  }

  lemma ReopenKeepsInv(d: Desk, id: string)
    requires DeskInv(d)
    ensures DeskInv(Reopened(d, id))
  {
    if id in d.parked {
      ResumeKeepsInv(d.parked[id]);
    }
  }

  lemma {:induction false} HistoryKeepsInv(h: Host, durable: bool, d: Desk, actions: seq<Action>)
    requires DeskInv(d)
    ensures DeskInv(History(h, durable, d, actions))
    decreases |actions|
  {
    if actions != [] {
      ActKeepsInv(h, durable, d, actions[0]);
      HistoryKeepsInv(h, durable, Act(h, durable, d, actions[0]), actions[1..]);
    }
  }

  lemma EmptyIsInv(g: CostGuard.GuardState)
    ensures DeskInv(Empty(g))
  {
  }

  // -------------------------------------------------------- what callers rely on

  /** An id is "not found" exactly when it was never accepted. */
  lemma NotFoundIff(h: Host, durable: bool, g: CostGuard.GuardState, actions: seq<Action>, id: string)
    ensures var d := History(h, durable, Empty(g), actions);
            StatusOf(d, id) == NotFound <==> id !in d.accepted
  {
    EmptyIsInv(g);
    HistoryKeepsInv(h, durable, Empty(g), actions);
  }

  lemma StoresGrow(h: Host, durable: bool, d: Desk, a: Action)
    ensures var e := Act(h, durable, d, a);
            && d.accepted <= e.accepted
            && (forall id | id in d.sidecars :: id in e.sidecars)
            && (forall id | id in d.incoming :: id in e.incoming)
  {
  }

  /** Acceptance is for ever, and once a sidecar exists the job never shows "processing"
      again, whatever happens, restarts included. */
  lemma {:induction false} NeverBackToProcessing(h: Host, durable: bool, d: Desk, actions: seq<Action>, id: string)
    ensures var e := History(h, durable, d, actions);
            && (id in d.accepted ==> id in e.accepted)
            && (StatusOf(d, id).Known? ==> StatusOf(e, id).Known?)
            && (StatusOf(d, id) != NotFound ==> StatusOf(e, id) != NotFound)
    decreases |actions|
  {
    if actions != [] {
      StoresGrow(h, durable, d, actions[0]);
      NeverBackToProcessing(h, durable, Act(h, durable, d, actions[0]), actions[1..], id);
    }
  }

  /** Since the process started, the jobs taken and then the jobs waiting are the jobs
      that arrived, in order; and of those taken all but the one at hand are done. */
  lemma FirstInFirstOut(h: Host, durable: bool, g: CostGuard.GuardState, actions: seq<Action>)
    ensures var d := History(h, durable, Empty(g), actions);
            && d.arrived == d.started + d.queue
            && |d.started| == d.taskDone + (if d.current.Some? then 1 else 0)
            && (d.current.Some? ==> d.started[|d.started| - 1] == d.current.value.job)
  {
    EmptyIsInv(g);
    HistoryKeepsInv(h, durable, Empty(g), actions);
  }

  lemma FailureIff(r: Run)
    ensures FailureOf(r).None? <==> PipelineResult(r).Some?
  {
  }

  /** When the worker closes a job, the job reads "completed" if the pipeline returned a
      path and "failed" otherwise; suspended and budget-aborted runs are of the second
      kind, and so is a run with a parse error or an uncaught exception. */
  lemma ClosingVerdict(h: Host, durable: bool, g: CostGuard.GuardState, actions: seq<Action>)
    ensures var d := History(h, durable, Empty(g), actions);
            d.current.Some? && !d.current.value.run.phase.Active() ==>
              var Work(job, run) := d.current.value;
              && (PipelineResult(run).Some? ==> Reads(Closed(d), job.jobId, Completed))
              && (PipelineResult(run).None? ==> Reads(Closed(d), job.jobId, Status.Failed))
              && (PipelineResult(run).Some? <==> run.phase.Finished? && !run.state.costExhausted
                                                 && run.state.parseError.GetOr("") == "")
  {
    EmptyIsInv(g);
    HistoryKeepsInv(h, durable, Empty(g), actions);
    var d := History(h, durable, Empty(g), actions);
    if d.current.Some? {
      FailureIff(d.current.value.run);
    }
  }

  /** The action files a completed sidecar for `id`. */
  predicate Reports(h: Host, d: Desk, a: Action, id: string) {
    match a
    case Advance(i) =>
      && d.current.Some? && d.current.value.run.thread == id
      && ReportOf(Step(h, d.current.value.run, d.guard, i).events).Some?
    case AdvanceResumed(thread, k, i) =>
      && thread in d.resumed && k < |d.resumed[thread]| && d.resumed[thread][k].thread == id
      && ReportOf(Step(h, d.resumed[thread][k], d.guard, i).events).Some?
    case _ => false
  }

  predicate Quiet(h: Host, durable: bool, d: Desk, actions: seq<Action>, id: string)
    decreases |actions|
  {
    actions == [] || (!Reports(h, d, actions[0], id)
                      && Quiet(h, durable, Act(h, durable, d, actions[0]), actions[1..], id))
  }

  /** What turns "failed" into something else is a report for that id, and nothing else. */
  lemma OnlyReportsRevive(h: Host, durable: bool, d: Desk, a: Action, id: string)
    requires Reads(d, id, Status.Failed)
    ensures Reports(h, d, a, id) ==> Reads(Act(h, durable, d, a), id, Completed)
    ensures !Reports(h, d, a, id) ==> Reads(Act(h, durable, d, a), id, Status.Failed)
  {
  }

  /** A failed job reads "failed" until some step files a report for it. */
  lemma {:induction false} FailedUntilReport(h: Host, durable: bool, d: Desk, actions: seq<Action>, id: string)
    requires Reads(d, id, Status.Failed) && Quiet(h, durable, d, actions, id)
    ensures Reads(History(h, durable, d, actions), id, Status.Failed)
    decreases |actions|
  {
    if actions != [] {
      OnlyReportsRevive(h, durable, d, actions[0], id);
      FailedUntilReport(h, durable, Act(h, durable, d, actions[0]), actions[1..], id);
    }
  }
}
