/** Every run of the gateway, resumed ones included, is about the alert its id was accepted
    with: it reads the file stored under that id and calls under that id. */
module GatewayFiles {
  import opened Prelude
  import opened Pipeline
  import opened PipelineProofs
  import opened Gateway
  import opened GatewayProofs
  import CostGuard
  import PipelineProducer
  import PipelineResume

  ghost predicate OwnFile(r: Run) {
    && r.state.logPath == "data/incoming/" + r.thread + ".json"
    && (r.thread != "" ==> r.state.traceId == Some(r.thread))
  }

  ghost predicate OwnJob(job: AlertJob) {
    job.logPath == "data/incoming/" + job.jobId + ".json" && job.traceId == job.jobId
  }

  ghost predicate FilesInv(d: Desk) {
    && (forall job | job in d.queue :: OwnJob(job))
    && (d.current.Some? ==> OwnFile(d.current.value.run))
    && (forall id | id in d.parked :: OwnFile(d.parked[id]))
    && (forall id, k | id in d.resumed && 0 <= k < |d.resumed[id]| :: OwnFile(d.resumed[id][k]))
  }

  lemma StepKeepsFile(h: Host, r: Run, g: CostGuard.GuardState, i: Input)
    requires RunInv(r) && OwnFile(r)
    ensures OwnFile(Step(h, r, g, i).run)
  {
    StepReports(h, r, g, i);
    StepKeepsPath(h, r, g, i);
    if r.thread != "" {
      PipelineProducer.TraceIdIsThreaded(h, r, [(g, i)]);
      PipelineResume.FollowOne(h, r, (g, i));
    }
  }

  lemma StepKeepsPath(h: Host, r: Run, g: CostGuard.GuardState, i: Input)
    ensures Step(h, r, g, i).run.state.logPath == r.state.logPath
  {
  }

  lemma NotedKeepsFiles(durable: bool, d: Desk, r: Run, one: Stepped)
    requires FilesInv(d) && OwnFile(one.run)
    ensures FilesInv(Noted(durable, d, r, one))
  {
    assert forall job | job in d.queue :: OwnJob(job);
  }

  lemma WorkedKeepsFiles(h: Host, durable: bool, d: Desk, i: Input)
    requires DeskInv(d) && FilesInv(d)
    ensures FilesInv(Worked(h, durable, d, i))
  {
    if d.current.Some? {
      var run := d.current.value.run;
      StepKeepsFile(h, run, d.guard, i);
      NotedKeepsFiles(durable, d, run, Step(h, run, d.guard, i));
    }
  }

  lemma ResumedJoin(d: Desk, e: Desk, id: string, runs: seq<Run>)
    requires FilesInv(d) && FilesInv(e) && e.resumed == d.resumed
    requires forall k | 0 <= k < |runs| :: OwnFile(runs[k])
    ensures FilesInv(e.(resumed := d.resumed[id := runs]))
  {
  }

  lemma ResumeWorkedKeepsFiles(h: Host, durable: bool, d: Desk, id: string, k: nat, i: Input)
    requires DeskInv(d) && FilesInv(d)
    ensures FilesInv(ResumeWorked(h, durable, d, id, k, i))
  {
    if id in d.resumed && k < |d.resumed[id]| {
      var run := d.resumed[id][k];
      var one := Step(h, run, d.guard, i);
      assert RunOf(d, id, run);
      StepKeepsFile(h, run, d.guard, i);
      NotedKeepsFiles(durable, d, run, one);
      ResumedJoin(d, Noted(durable, d, run, one), id, d.resumed[id][k := one.run]);
    }
  }

  lemma IngestKeepsFiles(d: Desk, header: Option<string>, token: string, alert: Alert)
    requires FilesInv(d)
    ensures FilesInv(Ingested(d, header, token, alert))
  {
  }

  lemma TakeKeepsFiles(d: Desk)
    requires FilesInv(d)
    ensures FilesInv(Taken(d))
  {
    if d.current.None? && d.queue != [] {
      assert OwnJob(d.queue[0]);
    }
  }

  lemma ReopenKeepsFiles(d: Desk, id: string)
    requires FilesInv(d)
    ensures FilesInv(Reopened(d, id))
  {
    if id in d.parked && d.parked[id].phase.Suspended? {
      var before := if id in d.resumed then d.resumed[id] else [];
      ResumedJoin(d, d, id, before + [Resume(d.parked[id])]);
    }
  }

  lemma ActKeepsFiles(h: Host, durable: bool, d: Desk, a: Action)
    requires DeskInv(d) && FilesInv(d)
    ensures FilesInv(Act(h, durable, d, a))
  {
    match a
    case Ingest(header, token, alert) => IngestKeepsFiles(d, header, token, alert);
    case Take => TakeKeepsFiles(d);
    case Advance(i) => WorkedKeepsFiles(h, durable, d, i);
    case Close =>
    case Reopen(id) => ReopenKeepsFiles(d, id);
    case AdvanceResumed(id, k, i) => ResumeWorkedKeepsFiles(h, durable, d, id, k, i);
    case Restart(_) =>
  }

  lemma {:induction false} HistoryKeepsFiles(h: Host, durable: bool, d: Desk, actions: seq<Action>)
    requires DeskInv(d) && FilesInv(d)
    ensures FilesInv(History(h, durable, d, actions))
    decreases |actions|
  {
    if actions != [] {
      ActKeepsFiles(h, durable, d, actions[0]);
      ActKeepsInv(h, durable, d, actions[0]);
      HistoryKeepsFiles(h, durable, Act(h, durable, d, actions[0]), actions[1..]);
    }
  }

  /** The run reads the file its alert was stored in, and every call is made under its id. */
  ghost predicate ReadsFileOf(r: Run, id: string) {
    && r.thread == id && r.state.logPath == "data/incoming/" + id + ".json"
    && (id != "" ==> r.state.traceId == Some(id))
  }

  /** After any history the worker's run, every suspended run and every resumed one read the
      file stored for the id they go by, which is that of an alert that was accepted. */
  lemma RunsReadOwnFile(h: Host, durable: bool, g: CostGuard.GuardState, actions: seq<Action>)
    ensures var d := History(h, durable, Empty(g), actions);
            && (d.current.Some? ==>
                  var id := d.current.value.job.jobId;
                  id in d.incoming && ReadsFileOf(d.current.value.run, id))
            && (forall id | id in d.parked :: id in d.incoming && ReadsFileOf(d.parked[id], id))
            && (forall id, k | id in d.resumed && 0 <= k < |d.resumed[id]| ::
                  id in d.incoming && ReadsFileOf(d.resumed[id][k], id))
  {
    EmptyIsInv(g);
    HistoryKeepsInv(h, durable, Empty(g), actions);
    HistoryKeepsFiles(h, durable, Empty(g), actions);
    var d := History(h, durable, Empty(g), actions);
    forall id | id in d.parked
      ensures id in d.incoming && ReadsFileOf(d.parked[id], id)
    {
      assert RunOf(d, id, d.parked[id]) && OwnFile(d.parked[id]);
    }
    forall id, k | id in d.resumed && 0 <= k < |d.resumed[id]|
      ensures id in d.incoming && ReadsFileOf(d.resumed[id][k], id)
    {
      assert RunOf(d, id, d.resumed[id][k]) && OwnFile(d.resumed[id][k]);
    }
  }
}
