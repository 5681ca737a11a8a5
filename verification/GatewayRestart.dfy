/** What a restart costs: a job that was waiting or under way, with nothing on file but its
    alert, is never worked on again unless it is submitted again. */
module GatewayRestart {
  import opened Prelude
  import opened Pipeline
  import opened PipelineProofs
  import opened Gateway
  import opened GatewayProofs
  import CostGuard

  /** Nothing of this id is waiting, under way or parked. */
  ghost predicate NoWork(d: Desk, id: string) {
    && (forall job | job in d.queue :: job.jobId != id)
    && (d.current.Some? ==> d.current.value.job.jobId != id)
    && id !in d.parked && id !in d.resumed
  }

  /** Only the files, the results and the suspended runs outlive the process; the next one
      starts with nothing spent and nothing to do. */
  lemma RestartKeepsStoresOnly(h: Host, durable: bool, d: Desk, budgetLimit: nat)
    ensures var e := Act(h, durable, d, Restart(budgetLimit));
            && e.guard == CostGuard.GuardState(0, budgetLimit, CostGuard.CNY, 0, None)
            && e.queue == [] && e.current.None? && e.resumed == map[]
            && e.incoming == d.incoming && e.sidecars == d.sidecars && e.parked == d.parked
            && e.accepted == d.accepted
  {
  }

  predicate Submits(a: Action, id: string) {
    a.Ingest? && JobIdFor(a.header, a.token) == Some(id)
  }

  predicate NeverSubmits(actions: seq<Action>, id: string) {
    forall k | 0 <= k < |actions| :: !Submits(actions[k], id)
  }

  lemma NotedLeavesOthers(durable: bool, d: Desk, r: Run, one: Stepped, id: string)
    requires r.thread != id && one.run.thread == r.thread
    ensures var e := Noted(durable, d, r, one);
            StatusOf(e, id) == StatusOf(d, id) && (id in e.parked <==> id in d.parked)
            && e.queue == d.queue && e.current == d.current && e.resumed == d.resumed
  {
  }

  /** Nothing of the id has begun, and its status is what it was. */
  ghost predicate LeavesIdle(d: Desk, e: Desk, id: string) {
    NoWork(e, id) && StatusOf(e, id) == StatusOf(d, id)
  }

  lemma WorkLeavesIdle(h: Host, durable: bool, d: Desk, i: Input, id: string)
    requires DeskInv(d) && NoWork(d, id)
    ensures LeavesIdle(d, Worked(h, durable, d, i), id)
  {
    if d.current.Some? {
      var run := d.current.value.run;
      StepReports(h, run, d.guard, i);
      NotedLeavesOthers(durable, d, run, Step(h, run, d.guard, i), id);
    }
  }

  lemma ResumedWorkLeavesIdle(h: Host, durable: bool, d: Desk, other: string, k: nat, i: Input, id: string)
    requires DeskInv(d) && NoWork(d, id)
    ensures LeavesIdle(d, ResumeWorked(h, durable, d, other, k, i), id)
  {
    if other in d.resumed && k < |d.resumed[other]| {
      var run := d.resumed[other][k];
      assert RunOf(d, other, run);
      StepReports(h, run, d.guard, i);
      NotedLeavesOthers(durable, d, run, Step(h, run, d.guard, i), id);
    }
  }

  lemma IngestLeavesIdle(d: Desk, header: Option<string>, token: string, alert: Alert, id: string)
    requires NoWork(d, id) && JobIdFor(header, token) != Some(id)
    ensures LeavesIdle(d, Ingested(d, header, token, alert), id)
  {
  }

  lemma RestLeavesIdle(d: Desk, other: string, budgetLimit: nat, id: string)
    requires NoWork(d, id)
    ensures LeavesIdle(d, Taken(d), id) && LeavesIdle(d, Closed(d), id)
    ensures LeavesIdle(d, Reopened(d, other), id) && LeavesIdle(d, Restarted(d, budgetLimit), id)
  {
  }

  lemma ActLeavesIdle(h: Host, durable: bool, d: Desk, a: Action, id: string)
    requires DeskInv(d) && NoWork(d, id) && !Submits(a, id)
    ensures LeavesIdle(d, Act(h, durable, d, a), id)
  {
    match a
    case Advance(i) => WorkLeavesIdle(h, durable, d, i, id);
    case AdvanceResumed(other, k, i) => ResumedWorkLeavesIdle(h, durable, d, other, k, i, id);
    case Ingest(header, token, alert) => IngestLeavesIdle(d, header, token, alert, id);
    case Take => RestLeavesIdle(d, id, 0, id);
    case Close => RestLeavesIdle(d, id, 0, id);
    case Reopen(other) => RestLeavesIdle(d, other, 0, id);
    case Restart(budgetLimit) => RestLeavesIdle(d, id, budgetLimit, id);
  }

  lemma {:induction false} IdleStaysIdle(h: Host, durable: bool, d: Desk, actions: seq<Action>, id: string)
    requires DeskInv(d) && NoWork(d, id) && NeverSubmits(actions, id)
    ensures StatusOf(History(h, durable, d, actions), id) == StatusOf(d, id)
    decreases |actions|
  {
    if actions != [] {
      ActLeavesIdle(h, durable, d, actions[0], id);
      ActKeepsInv(h, durable, d, actions[0]);
      assert forall k | 0 <= k < |actions[1..]| :: actions[1..][k] == actions[k + 1];
      IdleStaysIdle(h, durable, Act(h, durable, d, actions[0]), actions[1..], id);
    }
  }

  /** A job that the restart catches waiting or running, unless it is suspended in a durable
      store, keeps the status it had for ever, "processing" if it had no result, until it is
      submitted again. */
  lemma LostJobStaysProcessing(h: Host, durable: bool, g: CostGuard.GuardState, before: seq<Action>,
                               budgetLimit: nat, after: seq<Action>, id: string)
    requires var d := History(h, durable, Empty(g), before);
             id in d.accepted && id !in d.parked
    requires NeverSubmits(after, id)
    ensures var d := History(h, durable, Empty(g), before);
            var e := History(h, durable, Restarted(d, budgetLimit), after);
            && StatusOf(e, id) == StatusOf(d, id) && StatusOf(e, id) != NotFound
            && (id !in d.sidecars ==> StatusOf(e, id) == Processing)
  {
    var d := History(h, durable, Empty(g), before);
    EmptyIsInv(g);
    HistoryKeepsInv(h, durable, Empty(g), before);
    ActKeepsInv(h, durable, d, Restart(budgetLimit));
    IdleStaysIdle(h, durable, Restarted(d, budgetLimit), after, id);
  }
}
