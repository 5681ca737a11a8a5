/** The job gateway: alerts are stored and queued, one worker runs the pipeline on them in
    turn, suspended runs are resumed by request, and a status is read off the stores. */
module Gateway {
  import opened Prelude
  import opened Pipeline
  import CostGuard
  import PipelineBounds
  import World

  // ------------------------------------------------------------------- state

  datatype AlertJob = AlertJob(jobId: string, logPath: string, serviceName: string, traceId: string)

  datatype Alert = Alert(serviceName: string, body: string)

  datatype Status = Completed | Failed

  /** A result sidecar; the note is the report path or the error. */
  datatype Sidecar = Sidecar(traceId: string, status: Status, note: string)

  /** The job the worker has taken, and how far the pipeline has got with it. */
  datatype Work = Work(job: AlertJob, run: Run)

  /** What the process knows of since it started, its budget guard included, and what
      outlives it: the incoming files, the sidecars and the checkpoints. `accepted`, `arrived`, `started` and
      `taskDone` only record what has happened; all but the first since the start. */
  datatype Desk = Desk(
    guard: CostGuard.GuardState,
    queue: seq<AlertJob>,
    current: Option<Work>,
    resumed: map<string, seq<Run>>,
    arrived: seq<AlertJob>,
    started: seq<AlertJob>,
    taskDone: nat,
    incoming: map<string, Alert>,
    sidecars: map<string, Sidecar>,
    parked: map<string, Run>,
    accepted: seq<string>)

  /** A process that has just started on empty stores. */
  function Empty(g: CostGuard.GuardState): Desk {
    Desk(g, [], None, map[], [], [], 0, map[], map[], map[], [])
  }

  // --------------------------------------------------------------- operations

  /** A caller may bring a well-formed id; without one a fresh token is the id. */
  function JobIdFor(header: Option<string>, token: string): Option<string> {
    match header
    case None => Some(token)
    case Some(id) => if IsTraceId(id) then Some(id) else None
  }

  function IncomingPath(id: string): string {
    "data/incoming/" + id + ".json"
  }

  function JobFor(id: string, alert: Alert): AlertJob {
    AlertJob(id, IncomingPath(id), alert.serviceName, id)
  }

  /** Store the alert, then queue it; a malformed id changes nothing. */
  function Ingested(d: Desk, header: Option<string>, token: string, alert: Alert): Desk {
    match JobIdFor(header, token)
    case None => d
    case Some(id) =>
      d.(incoming := d.incoming[id := alert],
         queue := d.queue + [JobFor(id, alert)],
         arrived := d.arrived + [JobFor(id, alert)],
         accepted := d.accepted + [id])
  }

  function Begun(job: AlertJob): Run {
    Pipeline.Start(job.traceId, job.logPath, if job.traceId == "" then None else Some(job.traceId))
  }

  /** The worker takes the head of the queue once it is done with the job before. */
  function Taken(d: Desk): Desk {
    if d.current.Some? || d.queue == [] then d
    else d.(queue := d.queue[1..],
            current := Some(Work(d.queue[0], Begun(d.queue[0]))),
            started := d.started + [d.queue[0]])
  }

  /** The path format_report announced, if that is what the step did. */
  function ReportOf(events: seq<Event>): Option<string> {
    if |events| == 1 && events[0].Reported? then Some(events[0].path) else None
  }

  function Filed(sidecars: map<string, Sidecar>, r: Run, events: seq<Event>): map<string, Sidecar> {
    match ReportOf(events)
    case None => sidecars
    case Some(path) => sidecars[r.thread := Sidecar(r.state.traceId.GetOr(r.thread), Completed, path)]
  }

  /** What a step of any run leaves in the guard and the stores. */
  function Noted(durable: bool, d: Desk, before: Run, one: Stepped): Desk {
    d.(guard := one.guard,
       sidecars := Filed(d.sidecars, before, one.events),
       parked := World.Parked(durable, d.parked, before, one.run))
  }

  /** One step of the pipeline in the worker's thread. */
  function Worked(h: Host, durable: bool, d: Desk, i: Input): Desk {
    match d.current
    case None => d
    case Some(work) =>
      var one := Step(h, work.run, d.guard, i);
      Noted(durable, d, work.run, one).(current := Some(work.(run := one.run)))
  }

  /** The exception run_pipeline() ends with, if any. */
  function FailureOf(r: Run): Option<string> {
    if r.phase.Crashed? then Some(r.phase.message)
    else if r.state.parseError.GetOr("") != "" then r.state.parseError
    else if r.state.reportPath.None? then Some("report path is missing")
    else None
  }

  /** The pipeline has returned or raised: a failure is filed, and the job is done. */
  function Closed(d: Desk): Desk {
    match d.current
    case None => d
    case Some(Work(job, run)) =>
      if run.phase.Active() then d
      else
        d.(current := None,
           taskDone := d.taskDone + 1,
           sidecars := match FailureOf(run)
                       case None => d.sidecars
                       case Some(error) =>
                         d.sidecars[job.jobId := Sidecar(if job.traceId != "" then job.traceId else job.jobId,
                                                         Status.Failed, error)])
  }

  /** A resume request; without a suspended checkpoint there is nothing to resume. */
  function Reopened(d: Desk, id: string): Desk {
    if id !in d.parked || !d.parked[id].phase.Suspended? then d
    else
      var before := if id in d.resumed then d.resumed[id] else [];
      d.(resumed := d.resumed[id := before + [Resume(d.parked[id])]])
  }

  /** One step of a resumed pipeline, in the thread of its request. */
  function ResumeWorked(h: Host, durable: bool, d: Desk, id: string, k: nat, i: Input): Desk {
    if id !in d.resumed || k >= |d.resumed[id]| then d
    else
      var run := d.resumed[id][k];
      var one := Step(h, run, d.guard, i);
      Noted(durable, d, run, one).(resumed := d.resumed[id := d.resumed[id][k := one.run]])
  }

  /** The process dies and another one starts: the queue and every run are gone, and the
      guard starts afresh. */
  function Restarted(d: Desk, budgetLimit: nat): Desk {
    d.(guard := CostGuard.Opening(budgetLimit, CostGuard.CNY), queue := [], current := None, resumed := map[],
       arrived := [], started := [], taskDone := 0)
  }

  datatype StatusReply = Known(sidecar: Sidecar) | Processing | NotFound

  /** Sidecar first, then the incoming file. */
  function StatusOf(d: Desk, id: string): StatusReply {
    if id in d.sidecars then Known(d.sidecars[id])
    else if id in d.incoming then Processing
    else NotFound
  }

  predicate Reads(d: Desk, id: string, status: Status) {
    StatusOf(d, id).Known? && StatusOf(d, id).sidecar.status == status
  }

  // ---------------------------------------------------------------- histories

  datatype Action =
    | Ingest(header: Option<string>, token: string, alert: Alert)
    | Take
    | Advance(input: Input)
    | Close
    | Reopen(id: string)
    | AdvanceResumed(id: string, k: nat, input: Input)
    | Restart(budgetLimit: nat)

  function Act(h: Host, durable: bool, d: Desk, a: Action): Desk {
    match a
    case Ingest(header, token, alert) => Ingested(d, header, token, alert)
    case Take => Taken(d)
    case Advance(i) => Worked(h, durable, d, i)
    case Close => Closed(d)
    case Reopen(id) => Reopened(d, id)
    case AdvanceResumed(id, k, i) => ResumeWorked(h, durable, d, id, k, i)
    case Restart(budgetLimit) => Restarted(d, budgetLimit)
  }

  function History(h: Host, durable: bool, d: Desk, actions: seq<Action>): Desk
    decreases |actions|
  {
    if actions == [] then d
    else History(h, durable, Act(h, durable, d, actions[0]), actions[1..])
  }

  // ---------------------------------------------------------------- the object

  datatype IngestReply = Accepted(jobId: string) | BadTraceId

  class EventGateway {
    const host: Host
    const durable: bool
    var guard: CostGuard.GuardState
    var queue: seq<AlertJob>
    var current: Option<Work>
    var resumed: map<string, seq<Run>>
    ghost var arrived: seq<AlertJob>
    ghost var started: seq<AlertJob>
    var taskDone: nat
    var incoming: map<string, Alert>
    var sidecars: map<string, Sidecar>
    var parked: map<string, Run>
    ghost var accepted: seq<string>

    ghost function View(): Desk
      reads this
    {
      Desk(guard, queue, current, resumed, arrived, started, taskDone, incoming, sidecars, parked, accepted)
    }

    constructor (host: Host, durable: bool, guard: CostGuard.GuardState)
      ensures View() == Empty(guard) && this.host == host && this.durable == durable
    {
      this.host, this.durable, this.guard := host, durable, guard;
      queue, current, resumed, arrived, started, taskDone := [], None, map[], [], [], 0;
      incoming, sidecars, parked, accepted := map[], map[], map[], [];
    }

    method IngestAlert(header: Option<string>, token: string, alert: Alert) returns (reply: IngestReply)
      modifies this
      ensures View() == Ingested(old(View()), header, token, alert)
      ensures reply == BadTraceId <==> header.Some? && !IsTraceId(header.value)
      ensures reply.Accepted? ==> StatusOf(View(), reply.jobId) != NotFound
      ensures reply.Accepted? ==>
                var id := if header.None? then token else header.value;
                && reply.jobId == id && incoming == old(incoming)[id := alert]
                && queue == old(queue) + [AlertJob(id, "data/incoming/" + id + ".json", alert.serviceName, id)]
    {
      var id;
      if header.None? {
        id := token;
      } else if IsTraceId(header.value) {
        id := header.value;
      } else {
        return BadTraceId;
      }
      incoming := incoming[id := alert];
      var job := AlertJob(id, IncomingPath(id), alert.serviceName, id);
      queue := queue + [job];
      arrived, accepted := arrived + [job], accepted + [id];
      reply := Accepted(id);
    }

    /** Only reads. */
    method GetAlertStatus(id: string) returns (reply: StatusReply)
      ensures reply == StatusOf(View(), id)
    {
      if id in sidecars {
        reply := Known(sidecars[id]);
      } else if id in incoming {
        reply := Processing;
      } else {
        reply := NotFound;
      }
    }

    method WriteFailedResult(jobId: string, traceId: string, error: string)
      modifies this`sidecars
      ensures sidecars == old(sidecars)[jobId := Sidecar(if traceId != "" then traceId else jobId, Status.Failed, error)]
    {
      var payload := Sidecar(if traceId != "" then traceId else jobId, Status.Failed, error);
      sidecars := sidecars[jobId := payload];
    }

    /** One step of the pipeline on the current job. */
    method AdvanceRun(input: Input)
      requires current.Some?
      modifies this`guard, this`current, this`sidecars, this`parked
      ensures View() == Worked(host, durable, old(View()), input)
      ensures var Work(job, run) := old(current).value;
              var one := Step(host, run, old(guard), input);
              && current == Some(Work(job, one.run)) && guard == one.guard
              && (if |one.events| == 1 && one.events[0].Reported? then
                    sidecars == old(sidecars)[run.thread := Sidecar(run.state.traceId.GetOr(run.thread), Completed,
                                                                    one.events[0].path)]
                  else sidecars == old(sidecars))
              && (run.phase.Active() && one.run.phase.Suspended? ==>
                    parked == if durable then old(parked)[one.run.thread := one.run] else old(parked))
    {
      var Work(job, run) := current.value;
      var one := Step(host, run, guard, input);
      guard := one.guard;
      sidecars := Filed(sidecars, run, one.events);
      parked := World.Parked(durable, parked, run, one.run);
      current := Some(Work(job, one.run));
    }

    /** The pipeline on the current job, to its end; `n` is the number of steps. */
    method RunPipeline(inputs: nat -> Input) returns (ghost n: nat)
      requires current.Some? && PipelineBounds.RetryNode(current.value.run)
      modifies this`guard, this`current, this`sidecars, this`parked
      ensures View() == History(host, durable, old(View()), Advances(inputs, n))
      ensures current.Some? && current.value.job == old(current.value.job)
      ensures !current.value.run.phase.Active()
    {
      ghost var before := View();
      ghost var job := current.value.job;
      n := 0;
      var k: nat := 0;
      while current.value.run.phase.Active()
        invariant n == k && current.Some? && current.value.job == job
        invariant PipelineBounds.RetryNode(current.value.run)
        invariant View() == History(host, durable, before, Advances(inputs, n))
        decreases if current.Some? then PipelineBounds.Rank(current.value.run.phase) else 0
      {
        PipelineBounds.StepLowersRank(host, current.value.run, guard, inputs(k));
        PipelineBounds.StepKeepsRetryNode(host, current.value.run, guard, inputs(k));
        AdvanceOnce(host, durable, before, inputs, n);
        AdvanceRun(inputs(k));
        n, k := n + 1, k + 1;
      }
    }

    method TakeJob()
      requires current.None? && queue != []
      modifies this`queue, this`started, this`current
      ensures View() == Taken(old(View()))
      ensures current == Some(Work(old(queue)[0], Begun(old(queue)[0])))
    {
      var job := queue[0];
      queue := queue[1..];
      started := started + [job];
      current := Some(Work(job, Begun(job)));
    }

    /** The except and finally clauses: file a failure, count the job as done anyway. */
    method CloseJob()
      requires current.Some? && !current.value.run.phase.Active()
      modifies this`current, this`sidecars, this`taskDone
      ensures View() == Closed(old(View()))
      ensures current.None? && taskDone == old(taskDone) + 1
      ensures var Work(job, run) := old(current).value;
              var id := if job.traceId == "" then job.jobId else job.traceId;
              && (run.phase.Crashed? ==>
                    sidecars == old(sidecars)[job.jobId := Sidecar(id, Status.Failed, run.phase.message)])
              && (!run.phase.Crashed? && run.state.parseError.GetOr("") != "" ==>
                    sidecars == old(sidecars)[job.jobId := Sidecar(id, Status.Failed, run.state.parseError.value)])
              && (PipelineResult(run).Some? ==> sidecars == old(sidecars))
              && (PipelineResult(run).None? ==>
                    job.jobId in sidecars && sidecars[job.jobId].status == Status.Failed)
    {
      var job, failure := current.value.job, FailureOf(current.value.run);
      if failure.Some? {
        WriteFailedResult(job.jobId, job.traceId, failure.value);
      }
      current := None;
      taskDone := taskDone + 1;
    }

    /** One turn of the worker with nothing else going on. */
    method WorkerTurn(inputs: nat -> Input) returns (ghost steps: seq<Action>)
      requires current.None? && queue != []
      modifies this
      ensures View() == History(host, durable, old(View()), steps)
      ensures current.None? && queue == old(queue)[1..]
      ensures started == old(started) + [old(queue)[0]] && taskDone == old(taskDone) + 1
    {
      ghost var before := View();
      TakeJob();
      ghost var taken := View();
      ghost var n := RunPipeline(inputs);
      HistoryKeepsQueue(host, durable, taken, inputs, n);
      assert View().queue == queue && View().started == started && View().taskDone == taskDone;
      steps := [Take] + Advances(inputs, n) + [Close];
      TurnIsHistory(host, durable, before, Advances(inputs, n));
      CloseJob();
    }

    /** The worker loop on the jobs that are waiting: each is started once, in the order
        of arrival, and each is counted as done once. */
    method Worker(feed: nat -> nat -> Input) returns (ghost steps: seq<Action>)
      requires current.None?
      modifies this
      ensures View() == History(host, durable, old(View()), steps)
      ensures queue == [] && current.None?
      ensures started == old(started) + old(queue) && taskDone == old(taskDone) + |old(queue)|
    {
      ghost var before := View();
      steps := [];
      var turn: nat := 0;
      while queue != []
        invariant turn <= |old(queue)| && queue == old(queue)[turn..] && current.None?
        invariant started == old(started) + old(queue)[..turn] && taskDone == old(taskDone) + turn
        invariant View() == History(host, durable, before, steps)
        decreases |queue|
      {
        ghost var more := WorkerTurn(feed(turn));
        HistoryConcat(host, durable, before, steps, more);
        steps := steps + more;
        turn := turn + 1;
      }
    }

    /** Says whether a suspended run was resumed; the run itself goes on elsewhere. */
    method ResumeIncident(id: string) returns (resumes: bool)
      modifies this`resumed
      ensures View() == Reopened(old(View()), id)
      ensures resumes <==> id in parked && parked[id].phase.Suspended?
      ensures resumes ==>
                var earlier := if id in old(resumed) then old(resumed)[id] else [];
                resumed == old(resumed)[id := earlier + [parked[id].(phase := At(SecurityGate), approved := true)]]
    {
      resumes := id in parked && parked[id].phase.Suspended?;
      if resumes {
        var before := if id in resumed then resumed[id] else [];
        resumed := resumed[id := before + [Resume(parked[id])]];
      }
    }
  }

  // ---------------------------------------------------- histories of one worker

  function Advances(inputs: nat -> Input, n: nat): seq<Action> {
    seq(n, k requires 0 <= k < n => Advance(inputs(k)))
  }

  lemma {:induction false} HistoryConcat(h: Host, durable: bool, d: Desk, x: seq<Action>, y: seq<Action>)
    ensures History(h, durable, d, x + y) == History(h, durable, History(h, durable, d, x), y)
    decreases |x|
  {
    if x == [] {
      assert x + y == y;
    } else {
      assert (x + y)[1..] == x[1..] + y;
      HistoryConcat(h, durable, Act(h, durable, d, x[0]), x[1..], y);
    }
  }

  lemma OneAction(h: Host, durable: bool, d: Desk, a: Action)
    ensures History(h, durable, d, [a]) == Act(h, durable, d, a)
  {
    assert [a][1..] == [];
    assert History(h, durable, Act(h, durable, d, a), []) == Act(h, durable, d, a);
  }

  lemma TurnIsHistory(h: Host, durable: bool, d: Desk, steps: seq<Action>)
    ensures History(h, durable, d, [Take] + steps + [Close])
         == Closed(History(h, durable, Taken(d), steps))
  {
    HistoryConcat(h, durable, d, [Take] + steps, [Close]);
    HistoryConcat(h, durable, d, [Take], steps);
    OneAction(h, durable, d, Take);
    OneAction(h, durable, History(h, durable, d, [Take] + steps), Close);
  }

  lemma AdvanceOnce(h: Host, durable: bool, d: Desk, inputs: nat -> Input, n: nat)
    ensures History(h, durable, d, Advances(inputs, n + 1))
         == Worked(h, durable, History(h, durable, d, Advances(inputs, n)), inputs(n))
  {
    assert Advances(inputs, n + 1) == Advances(inputs, n) + [Advance(inputs(n))];
    HistoryConcat(h, durable, d, Advances(inputs, n), [Advance(inputs(n))]);
    OneAction(h, durable, History(h, durable, d, Advances(inputs, n)), Advance(inputs(n)));
  }

  lemma {:induction false} HistoryKeepsQueue(h: Host, durable: bool, d: Desk, inputs: nat -> Input, n: nat)
    ensures var e := History(h, durable, d, Advances(inputs, n));
            && e.queue == d.queue && e.started == d.started && e.taskDone == d.taskDone
  {
    if n > 0 {
      AdvanceOnce(h, durable, d, inputs, n - 1);
      HistoryKeepsQueue(h, durable, d, inputs, n - 1);
    }
  }
}
