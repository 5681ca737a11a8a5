/** Two histories of the gateway from its start, for any host: one in which a job that reads
    "completed" comes to read "failed", and one in which a job fails because another one
    has spent the budget. */
module GatewayWitness {
  import opened Prelude
  import opened Pipeline
  import opened PipelineProofs
  import opened Gateway
  import opened GatewayProofs
  import opened GatewayRace
  import opened GatewayIsolation
  import CostGuard
  import Fence
  import Normalizer
  import Reviewer
  import Verifier

  // ------------------------------------------------------------------- inputs

  const LOG := ErrorLog("t", "s", "e", "m", None)

  /** The log parses, the model answers at once, and the report is written. */
  function Answering(content: string, cost: nat): Input {
    Input("", Parsed(LOG), Answered(content, cost), TimedOut, 0,
          Verifier.Sandbox(None, Verifier.ReadTimeout, Verifier.ReadTimeout, Verifier.ReadTimeout, None, None, None),
          Written("", "report"))
  }

  /** The provider refuses the request, or the client breaks. */
  function Failing(attempt: Attempt): Input {
    Answering("", 0).(first := attempt)
  }

  // ----------------------------------------------------------- one step of a run

  ghost predicate On(r: Run, id: string, node: Node) {
    r.thread == id && r.phase == At(node) && r.state.traceId == Some(id) && !r.approved && RunInv(r)
  }

  /** The step leaves nothing but the run and the guard changed. */
  ghost predicate Plain(r: Run, o: Stepped) {
    r.phase.Active() && r.phase != At(SecurityGate) && !o.run.phase.Suspended? && ReportOf(o.events).None?
  }

  predicate InFunds(g: CostGuard.GuardState, cost: nat) {
    g.currency == CostGuard.CNY && g.totalSpent + cost <= g.budgetLimit
  }

  lemma GoFromDispatch(h: Host, r: Run, id: string, g: CostGuard.GuardState, i: Input)
    requires IsTraceId(id) && On(r, id, Dispatch)
    ensures var o := Step(h, r, g, i);
            Plain(r, o) && On(o.run, id, ParseLog) && o.guard == g
  {
    StepKeepsInv(h, r, g, i);
  }

  lemma GoFromParseLog(h: Host, r: Run, id: string, g: CostGuard.GuardState, i: Input)
    requires On(r, id, ParseLog) && i.file.Parsed?
    ensures var o := Step(h, r, g, i);
            Plain(r, o) && On(o.run, id, Diagnosis) && o.guard == g
  {
    StepKeepsInv(h, r, g, i);
  }

  lemma GoFromDiagnosis(h: Host, r: Run, id: string, g: CostGuard.GuardState, content: string, cost: nat)
    requires IsTraceId(id) && On(r, id, Diagnosis) && InFunds(g, cost)
    ensures var o := Step(h, r, g, Answering(content, cost));
            Plain(r, o) && On(o.run, id, Supervisor)
            && o.guard == CostGuard.After(g, cost, CostGuard.CNY, 0)
  {
    StepKeepsInv(h, r, g, Answering(content, cost));
  }

  lemma TripAtDiagnosis(h: Host, r: Run, id: string, g: CostGuard.GuardState, content: string, cost: nat)
    requires IsTraceId(id) && On(r, id, Diagnosis) && g.currency == CostGuard.CNY && !InFunds(g, cost)
    ensures var o := Step(h, r, g, Answering(content, cost));
            Plain(r, o) && On(o.run, id, CostExhausted)
  {
    StepKeepsInv(h, r, g, Answering(content, cost));
  }

  lemma GoFromSupervisor(h: Host, r: Run, id: string, g: CostGuard.GuardState, content: string)
    requires IsTraceId(id) && On(r, id, Supervisor) && InFunds(g, 0)
    ensures var o := Step(h, r, g, Answering(content, 0));
            Plain(r, o) && (On(o.run, id, CodeFixer) || On(o.run, id, InfraSre))
            && o.guard == CostGuard.After(g, 0, CostGuard.CNY, 0)
  {
    StepKeepsInv(h, r, g, Answering(content, 0));
  }

  lemma GoFromSpecialist(h: Host, r: Run, id: string, g: CostGuard.GuardState, content: string)
    requires IsTraceId(id) && (On(r, id, CodeFixer) || On(r, id, InfraSre)) && InFunds(g, 0)
    requires h.compile(Fence.StripMarkdownFence(content)) == Normalizer.Compiles
    ensures var o := Step(h, r, g, Answering(content, 0));
            Plain(r, o) && On(o.run, id, SecurityReviewer)
            && o.run.state.fixArtifact == Some(Fence.StripMarkdownFence(content))
            && o.guard == CostGuard.After(g, 0, CostGuard.CNY, 0)
  {
    StepKeepsInv(h, r, g, Answering(content, 0));
  }

  lemma GoFromReviewer(h: Host, r: Run, id: string, g: CostGuard.GuardState)
    requires IsTraceId(id) && On(r, id, SecurityReviewer)
    ensures var o := Step(h, r, g, Failing(Refused("")));
            Plain(r, o) && On(o.run, id, SecurityGate) && o.guard == g
            && o.run.state.fixArtifact == r.state.fixArtifact
            && o.run.state.securityVerdict == Some(Reviewer.HighRisk)
  {
    StepKeepsInv(h, r, g, Failing(Refused("")));
  }

  lemma PlainAdvance(h: Host, durable: bool, d: Desk, i: Input)
    requires d.current.Some? && Plain(d.current.value.run, Step(h, d.current.value.run, d.guard, i))
    ensures var one := Step(h, d.current.value.run, d.guard, i);
            Act(h, durable, d, Advance(i))
            == d.(guard := one.guard, current := Some(d.current.value.(run := one.run)))
  {
  }

  // ---------------------------------------------- completed, and then failed

  /** The worker is `k` steps from the gate. */
  ghost predicate StepsFromGate(d: Desk, id: string, k: nat, artifact: string) {
    && k <= 6 && d.current.Some? && d.current.value.job.jobId == id && InFunds(d.guard, 0)
    && var r := d.current.value.run;
       && (k == 6 ==> On(r, id, Dispatch))
       && (k == 5 ==> On(r, id, ParseLog))
       && (k == 4 ==> On(r, id, Diagnosis))
       && (k == 3 ==> On(r, id, Supervisor))
       && (k == 2 ==> On(r, id, CodeFixer) || On(r, id, InfraSre))
       && (k == 1 ==> On(r, id, SecurityReviewer) && r.state.fixArtifact == Some(artifact))
       && (k == 0 ==> On(r, id, SecurityGate) && r.state.fixArtifact == Some(artifact)
                      && r.state.securityVerdict == Some(Reviewer.HighRisk))
  }

  function Arriving(k: nat, content: string): Input {
    if k == 1 then Failing(Refused("")) else Answering(content, 0)
  }

  function ToGate(k: nat, content: string): seq<Action> {
    if k == 0 then [] else [Advance(Arriving(k, content))] + ToGate(k - 1, content)
  }

  lemma OneStepCloser(h: Host, durable: bool, d: Desk, id: string, k: nat, content: string)
    requires IsTraceId(id) && 1 <= k <= 6
    requires h.compile(Fence.StripMarkdownFence(content)) == Normalizer.Compiles
    requires StepsFromGate(d, id, k, Fence.StripMarkdownFence(content))
    ensures StepsFromGate(Act(h, durable, d, Advance(Arriving(k, content))), id, k - 1,
                          Fence.StripMarkdownFence(content))
  {
    var r := d.current.value.run;
    if k == 6 {
      GoFromDispatch(h, r, id, d.guard, Arriving(k, content));
    } else if k == 5 {
      GoFromParseLog(h, r, id, d.guard, Arriving(k, content));
    } else if k == 4 {
      GoFromDiagnosis(h, r, id, d.guard, content, 0);
    } else if k == 3 {
      GoFromSupervisor(h, r, id, d.guard, content);
    } else if k == 2 {
      GoFromSpecialist(h, r, id, d.guard, content);
    } else {
      GoFromReviewer(h, r, id, d.guard);
    }
    PlainAdvance(h, durable, d, Arriving(k, content));
  }

  lemma HistoryOfCons(h: Host, durable: bool, d: Desk, a: Action, rest: seq<Action>)
    ensures History(h, durable, d, [a] + rest) == History(h, durable, Act(h, durable, d, a), rest)
  {
    assert ([a] + rest)[1..] == rest;
  }

  /** What each step takes one closer is reached in the end. */
  lemma {:induction false} Descends(h: Host, durable: bool, d: Desk, k: nat, content: string,
                                    closer: (Desk, nat) -> bool)
    requires closer(d, k)
    requires forall e: Desk, j: nat | closer(e, j) && j > 0 ::
               closer(Act(h, durable, e, Advance(Arriving(j, content))), j - 1)
    ensures closer(History(h, durable, d, ToGate(k, content)), 0)
    decreases k
  {
    if k > 0 {
      var a := Advance(Arriving(k, content));
      HistoryOfCons(h, durable, d, a, ToGate(k - 1, content));
      Descends(h, durable, Act(h, durable, d, a), k - 1, content, closer);
    }
  }

  lemma GetsToGate(h: Host, durable: bool, d: Desk, id: string, content: string)
    requires IsTraceId(id) && h.compile(Fence.StripMarkdownFence(content)) == Normalizer.Compiles
    requires StepsFromGate(d, id, 6, Fence.StripMarkdownFence(content))
    ensures StepsFromGate(History(h, durable, d, ToGate(6, content)), id, 0, Fence.StripMarkdownFence(content))
  {
    var artifact := Fence.StripMarkdownFence(content);
    ghost var closer := (e: Desk, j: nat) => StepsFromGate(e, id, j, artifact);
    forall e: Desk, j: nat | closer(e, j) && j > 0
      ensures closer(Act(h, durable, e, Advance(Arriving(j, content))), j - 1)
    {
      OneStepCloser(h, durable, e, id, j, content);
    }
    Descends(h, durable, d, 6, content, closer);
  }

  /** Submit one alert, run it to the gate and into suspension, and resume it to its end
      before the worker closes it. */
  function RaceHistory(id: string, alert: Alert, content: string): seq<Action> {
    var gate := Answering("", 0);
    Approach(id, alert, content) + ([Advance(gate)] + ResumeSteps(id, gate, gate, gate))
  }

  function Approach(id: string, alert: Alert, content: string): seq<Action> {
    [Ingest(Some(id), "", alert), Take] + ToGate(6, content)
  }

  lemma {:induction false} NoIngestNoReuse(h: Host, durable: bool, d: Desk, actions: seq<Action>)
    requires forall k | 0 <= k < |actions| :: !actions[k].Ingest?
    ensures NoReuse(h, durable, d, actions)
    decreases |actions|
  {
    if actions != [] {
      NoIngestNoReuse(h, durable, Act(h, durable, d, actions[0]), actions[1..]);
    }
  }

  lemma {:induction false} ToGateIngestsNothing(k: nat, content: string)
    ensures forall j | 0 <= j < |ToGate(k, content)| :: !ToGate(k, content)[j].Ingest?
  {
    if k > 0 {
      ToGateIngestsNothing(k - 1, content);
    }
  }

  lemma SubmittedOnce(h: Host, g: CostGuard.GuardState, id: string, alert: Alert, rest: seq<Action>)
    requires forall k | 0 <= k < |rest| :: !rest[k].Ingest?
    ensures NoReuse(h, true, Empty(g), [Ingest(Some(id), "", alert), Take] + rest)
  {
    var all := [Ingest(Some(id), "", alert), Take] + rest;
    NoIngestNoReuse(h, true, Act(h, true, Empty(g), all[0]), all[1..]);
  }

  lemma Picked(h: Host, durable: bool, d: Desk, id: string, alert: Alert)
    requires d.current.None? && d.queue == [] && IsTraceId(id)
    ensures var e := Taken(Ingested(d, Some(id), "", alert));
            && e.current == Some(Work(JobFor(id, alert), Begun(JobFor(id, alert)))) && e.queue == []
            && On(Begun(JobFor(id, alert)), id, Dispatch)
            && e.guard == d.guard && e.sidecars == d.sidecars && id in e.incoming
  {
    assert ([] + [JobFor(id, alert)])[1..] == [];
    StartIsInv(id, IncomingPath(id), Some(id));
  }

  lemma ReachesGate(h: Host, g: CostGuard.GuardState, id: string, alert: Alert, content: string)
    requires IsTraceId(id) && InFunds(g, 0)
    requires h.compile(Fence.StripMarkdownFence(content)) == Normalizer.Compiles
    ensures var d := History(h, true, Empty(g), Approach(id, alert, content));
            DeskInv(d) && Once(d) && StepsFromGate(d, id, 0, Fence.StripMarkdownFence(content))
  {
    var start := [Ingest(Some(id), "", alert), Take];
    EmptyIsInv(g);
    ToGateIngestsNothing(6, content);
    SubmittedOnce(h, g, id, alert, ToGate(6, content));
    HistoryKeepsInv(h, true, Empty(g), Approach(id, alert, content));
    HistoryKeepsOnce(h, true, Empty(g), Approach(id, alert, content));
    Picked(h, true, Empty(g), id, alert);
    TakenHistory(h, true, Empty(g), id, alert);
    HistoryConcat(h, true, Empty(g), start, ToGate(6, content));
    GetsToGate(h, true, Taken(Ingested(Empty(g), Some(id), "", alert)), id, content);
  }

  lemma ParksAtGate(h: Host, d: Desk, id: string, gate: Input, artifact: string)
    requires DeskInv(d) && Once(d) && StepsFromGate(d, id, 0, artifact)
    requires h.compile(artifact) == Normalizer.Compiles && gate.report.Written?
    ensures var e := Act(h, true, d, Advance(gate));
            && e.current.Some? && e.current.value.job.jobId == id
            && Resumable(e, id, e.current.value.run) && GoesThrough(h, e.current.value.run, gate, gate)
  {
    GateParks(h, d, gate);
    ParkedGoesThrough(h, d, gate, artifact);
  }

  /** After this history the id reads "completed"; then the worker closes the job, and it
      reads "failed". The id was submitted once, the store is durable, the fix compiles, and
      the reviewer's provider refused the request. */
  lemma CompletedThenFailed(h: Host, g: CostGuard.GuardState, id: string, alert: Alert, content: string)
    requires IsTraceId(id) && InFunds(g, 0)
    requires h.compile(Fence.StripMarkdownFence(content)) == Normalizer.Compiles
    ensures var actions := RaceHistory(id, alert, content);
            var d := History(h, true, Empty(g), actions);
            && NoReuse(h, true, Empty(g), actions)
            && Reads(d, id, Completed)
            && Reads(Act(h, true, d, Close), id, Status.Failed)
  {
    var gate := Answering("", 0);
    var resume := ResumeSteps(id, gate, gate, gate);
    RaceSubmitsOnce(h, g, id, alert, content);
    ReachesGate(h, g, id, alert, content);
    var d := History(h, true, Empty(g), Approach(id, alert, content));
    ParksAtGate(h, d, id, gate, Fence.StripMarkdownFence(content));
    HistoryConcat(h, true, Empty(g), Approach(id, alert, content), [Advance(gate)] + resume);
    HistoryOfCons(h, true, d, Advance(gate), resume);
    var e := Act(h, true, d, Advance(gate));
    ResumedThenClosed(h, e, id, e.current.value.run, gate);
  }

  lemma RaceSubmitsOnce(h: Host, g: CostGuard.GuardState, id: string, alert: Alert, content: string)
    ensures NoReuse(h, true, Empty(g), RaceHistory(id, alert, content))
  {
    var gate := Answering("", 0);
    var rest := ToGate(6, content) + ([Advance(gate)] + ResumeSteps(id, gate, gate, gate));
    ToGateIngestsNothing(6, content);
    SubmittedOnce(h, g, id, alert, rest);
    assert RaceHistory(id, alert, content) == [Ingest(Some(id), "", alert), Take] + rest;
  }

  lemma TakenHistory(h: Host, durable: bool, d: Desk, id: string, alert: Alert)
    ensures History(h, durable, d, [Ingest(Some(id), "", alert), Take])
         == Taken(Ingested(d, Some(id), "", alert))
  {
    var start := [Ingest(Some(id), "", alert), Take];
    assert start[1..] == [Take];
    OneAction(h, durable, Ingested(d, Some(id), "", alert), Take);
  }

  lemma ParkedGoesThrough(h: Host, d: Desk, gate: Input, artifact: string)
    requires d.current.Some? && d.current.value.run.phase == At(SecurityGate)
    requires d.current.value.run.state.fixArtifact == Some(artifact) && h.compile(artifact) == Normalizer.Compiles
    requires WaitsForApproval(Worked(h, true, d, gate)) && gate.report.Written?
    ensures GoesThrough(h, Worked(h, true, d, gate).current.value.run, gate, gate)
  {
  }

  lemma ResumedThenClosed(h: Host, d: Desk, id: string, run: Run, gate: Input)
    requires Resumable(d, id, run) && GoesThrough(h, run, gate, gate)
    requires d.current.Some? && d.current.value.run == run && d.current.value.job.jobId == id
    ensures var e := History(h, true, d, ResumeSteps(id, gate, gate, gate));
            Reads(e, id, Completed) && Reads(Act(h, true, e, Close), id, Status.Failed)
  {
    ResumeReports(h, true, d, id, gate, gate, gate);
    SuspendedFails(run);
  }

  // ------------------------------------------- one job spends another one's budget

  /** The worker's turn on one alert, four steps long. */
  function Turn(id: string, alert: Alert, inputs: seq<Input>): seq<Action>
    requires |inputs| == 4
  {
    [Ingest(Some(id), "", alert), Take] + (Steps(inputs) + [Close])
  }

  function Steps(inputs: seq<Input>): seq<Action>
    requires |inputs| == 4
  {
    [Advance(inputs[0]), Advance(inputs[1]), Advance(inputs[2]), Advance(inputs[3])]
  }

  function Reached(h: Host, d: Desk, job: AlertJob, inputs: seq<Input>): Stepped
    requires |inputs| == 4
  {
    var o1 := Step(h, Begun(job), d.guard, inputs[0]);
    var o2 := Step(h, o1.run, o1.guard, inputs[1]);
    var o3 := Step(h, o2.run, o2.guard, inputs[2]);
    Step(h, o3.run, o3.guard, inputs[3])
  }

  /** All four steps leave nothing but the run and the guard changed. */
  ghost predicate AllPlain(h: Host, d: Desk, job: AlertJob, inputs: seq<Input>)
    requires |inputs| == 4
  {
    var r := Begun(job);
    var o1 := Step(h, r, d.guard, inputs[0]);
    var o2 := Step(h, o1.run, o1.guard, inputs[1]);
    var o3 := Step(h, o2.run, o2.guard, inputs[2]);
    && Plain(r, o1) && Plain(o1.run, o2) && Plain(o2.run, o3)
    && Plain(o3.run, Step(h, o3.run, o3.guard, inputs[3]))
  }

  predicate Idle(d: Desk) {
    d.current.None? && d.queue == []
  }

  /** The desk at the end of the four steps. */
  function AtEnd(h: Host, d: Desk, id: string, alert: Alert, inputs: seq<Input>): Desk
    requires |inputs| == 4
  {
    var e := Taken(Ingested(d, Some(id), "", alert));
    var o := Reached(h, d, JobFor(id, alert), inputs);
    e.(guard := o.guard, current := Some(Work(JobFor(id, alert), o.run)))
  }

  /** The four steps from a desk whose worker has just taken the job. */
  lemma StepsEnd(h: Host, durable: bool, d: Desk, job: AlertJob, inputs: seq<Input>)
    requires |inputs| == 4 && d.current == Some(Work(job, Begun(job)))
    ensures var o := Reached(h, d, job, inputs);
            AllPlain(h, d, job, inputs) ==>
              History(h, durable, d, Steps(inputs)) == d.(guard := o.guard, current := Some(Work(job, o.run)))
  {
    if AllPlain(h, d, job, inputs) {
      var a := Steps(inputs);
      PlainAdvance(h, durable, d, inputs[0]);
      var d1 := Act(h, durable, d, a[0]);
      PlainAdvance(h, durable, d1, inputs[1]);
      var d2 := Act(h, durable, d1, a[1]);
      PlainAdvance(h, durable, d2, inputs[2]);
      var d3 := Act(h, durable, d2, a[2]);
      PlainAdvance(h, durable, d3, inputs[3]);
      FourActions(h, durable, d, a);
    }
  }

  lemma TurnEnds(h: Host, durable: bool, d: Desk, id: string, alert: Alert, inputs: seq<Input>)
    requires |inputs| == 4 && IsTraceId(id) && Idle(d)
    ensures AllPlain(h, d, JobFor(id, alert), inputs) ==>
              History(h, durable, d, Turn(id, alert, inputs)) == Closed(AtEnd(h, d, id, alert, inputs))
  {
    if AllPlain(h, d, JobFor(id, alert), inputs) {
      var d0 := Taken(Ingested(d, Some(id), "", alert));
      Picked(h, durable, d, id, alert);
      TakenHistory(h, durable, d, id, alert);
      StepsEnd(h, durable, d0, JobFor(id, alert), inputs);
      HistoryConcat(h, durable, d, [Ingest(Some(id), "", alert), Take], Steps(inputs) + [Close]);
      HistoryConcat(h, durable, d0, Steps(inputs), [Close]);
      OneAction(h, durable, AtEnd(h, d, id, alert, inputs), Close);
    }
  }

  predicate Busy(d: Desk, id: string) {
    d.current.Some? && d.current.value.job.jobId == id
  }

  lemma {:induction false} StaysBusy(h: Host, durable: bool, d: Desk, steps: seq<Action>, id: string)
    requires Busy(d, id) && forall k | 0 <= k < |steps| :: steps[k].Advance?
    ensures Busy(History(h, durable, d, steps), id)
    decreases |steps|
  {
    if steps != [] {
      StaysBusy(h, durable, Act(h, durable, d, steps[0]), steps[1..], id);
    }
  }

  /** All of it, or nothing. */
  function If<T>(condition: bool, s: seq<T>): seq<T> {
    if condition then s else []
  }

  lemma IfConcat<T>(condition: bool, x: seq<T>, y: seq<T>)
    ensures If(condition, x) + If(condition, y) == If(condition, x + y)
  {
  }

  lemma AdvanceIsOwn(d: Desk, a: Action, id: string, other: string)
    requires Busy(d, id) && a.Advance?
    ensures Concerns(d, a, other) <==> id == other
  {
  }

  lemma {:induction false} OnlyAdvances(h: Host, durable: bool, d: Desk, steps: seq<Action>, id: string,
                                        other: string)
    requires Busy(d, id) && forall k | 0 <= k < |steps| :: steps[k].Advance?
    ensures Only(h, durable, d, steps, other) == If(id == other, steps)
    decreases |steps|
  {
    if steps != [] {
      var first, rest := steps[0], steps[1..];
      OnlyAdvances(h, durable, Act(h, durable, d, first), rest, id, other);
      OnlyOfCons(h, durable, d, first, rest, other);
      AdvanceIsOwn(d, first, id, other);
      IfConcat(id == other, [first], rest);
      assert steps == [first] + rest;
    }
  }

  /** A turn is about its own id, from its first action to its last. */
  lemma OnlyTurn(h: Host, durable: bool, d: Desk, id: string, alert: Alert, inputs: seq<Input>, other: string)
    requires |inputs| == 4 && IsTraceId(id) && Idle(d)
    ensures Only(h, durable, d, Turn(id, alert, inputs), other) == If(id == other, Turn(id, alert, inputs))
  {
    var start := [Ingest(Some(id), "", alert), Take];
    var d0 := Taken(Ingested(d, Some(id), "", alert));
    Picked(h, durable, d, id, alert);
    TakenHistory(h, durable, d, id, alert);
    OnlyStart(h, durable, d, id, alert, other);
    OnlyRest(h, durable, d0, Steps(inputs), id, other);
    OnlyConcat(h, durable, d, start, Steps(inputs) + [Close], other);
    IfConcat(id == other, start, Steps(inputs) + [Close]);
  }

  lemma OnlyRest(h: Host, durable: bool, d: Desk, steps: seq<Action>, id: string, other: string)
    requires Busy(d, id) && forall k | 0 <= k < |steps| :: steps[k].Advance?
    ensures Only(h, durable, d, steps + [Close], other) == If(id == other, steps + [Close])
  {
    OnlyAdvances(h, durable, d, steps, id, other);
    StaysBusy(h, durable, d, steps, id);
    OnlyConcat(h, durable, d, steps, [Close], other);
    OnlyClose(h, durable, History(h, durable, d, steps), id, other);
    IfConcat(id == other, steps, [Close]);
  }

  lemma OnlyStart(h: Host, durable: bool, d: Desk, id: string, alert: Alert, other: string)
    requires IsTraceId(id) && Idle(d)
    ensures var start := [Ingest(Some(id), "", alert), Take];
            Only(h, durable, d, start, other) == If(id == other, start)
  {
    var ingest := Ingest(Some(id), "", alert);
    var d1 := Act(h, durable, d, ingest);
    assert d1.queue[0].jobId == id;
    OnlyNothing(h, durable, Act(h, durable, d1, Take), other);
    OnlyOfCons(h, durable, d1, Take, [], other);
    OnlyOfCons(h, durable, d, ingest, [Take] + [], other);
    assert [ingest] + ([Take] + []) == [ingest, Take];
  }

  lemma OnlyClose(h: Host, durable: bool, d: Desk, id: string, other: string)
    requires Busy(d, id)
    ensures Only(h, durable, d, [Close], other) == If(id == other, [Close])
  {
    OnlyNothing(h, durable, Act(h, durable, d, Close), other);
    OnlyOfCons(h, durable, d, Close, [], other);
    assert [Close] + [] == [Close];
  }

  lemma OnlyNothing(h: Host, durable: bool, d: Desk, id: string)
    ensures Only(h, durable, d, [], id) == []
  {
  }

  lemma OnlyOfCons(h: Host, durable: bool, d: Desk, a: Action, rest: seq<Action>, id: string)
    ensures Only(h, durable, d, [a] + rest, id)
         == (if Concerns(d, a, id) then [a] else []) + Only(h, durable, Act(h, durable, d, a), rest, id)
  {
    assert ([a] + rest)[1..] == rest;
  }

  lemma {:induction false} OnlyConcat(h: Host, durable: bool, d: Desk, x: seq<Action>, y: seq<Action>, id: string)
    ensures Only(h, durable, d, x + y, id)
         == Only(h, durable, d, x, id) + Only(h, durable, History(h, durable, d, x), y, id)
    decreases |x|
  {
    if x == [] {
      assert x + y == y;
      assert [] + Only(h, durable, d, y, id) == Only(h, durable, d, y, id);
    } else {
      var d' := Act(h, durable, d, x[0]);
      var head := if Concerns(d, x[0], id) then [x[0]] else [];
      assert (x + y)[1..] == x[1..] + y;
      OnlyConcat(h, durable, d', x[1..], y, id);
      var first, second := Only(h, durable, d', x[1..], id), Only(h, durable, History(h, durable, d', x[1..]), y, id);
      assert head + (first + second) == (head + first) + second;
    }
  }

  /** A turn whose only answered call costs `c`, and whose second call breaks. */
  function Spender(c: nat): seq<Input> {
    [Answering("", c), Answering("", c), Answering("", c), Failing(Broke(""))]
  }

  function Asker(): seq<Input> {
    [Answering("", 1), Answering("", 1), Answering("", 1), Answering("", 1)]
  }

  lemma SpenderTurn(h: Host, d: Desk, id: string, alert: Alert, c: nat)
    requires IsTraceId(id) && InFunds(d.guard, c)
    ensures AllPlain(h, d, JobFor(id, alert), Spender(c))
    ensures var o := Reached(h, d, JobFor(id, alert), Spender(c));
            o.run.phase.Crashed? && o.guard == CostGuard.After(d.guard, c, CostGuard.CNY, 0)
  {
    var r := Begun(JobFor(id, alert));
    StartIsInv(id, IncomingPath(id), Some(id));
    var i := Answering("", c);
    GoFromDispatch(h, r, id, d.guard, i);
    var o1 := Step(h, r, d.guard, i);
    GoFromParseLog(h, o1.run, id, o1.guard, i);
    var o2 := Step(h, o1.run, o1.guard, i);
    GoFromDiagnosis(h, o2.run, id, o2.guard, "", c);
    var o3 := Step(h, o2.run, o2.guard, i);
    BreaksAtSupervisor(h, o3.run, id, o3.guard);
  }

  lemma BreaksAtSupervisor(h: Host, r: Run, id: string, g: CostGuard.GuardState)
    requires IsTraceId(id) && On(r, id, Supervisor)
    ensures var o := Step(h, r, g, Failing(Broke("")));
            Plain(r, o) && o.run.phase.Crashed? && o.guard == g
  {
  }

  /** On a spent budget the job is aborted and reads "failed"; otherwise its run is still
      going, and the job reads "processing". */
  lemma AskerTurn(h: Host, d: Desk, id: string, alert: Alert)
    requires IsTraceId(id) && d.guard.currency == CostGuard.CNY
    ensures AllPlain(h, d, JobFor(id, alert), Asker())
    ensures var r := Reached(h, d, JobFor(id, alert), Asker()).run;
            if InFunds(d.guard, 1) then r.phase.Active() else r.phase.Finished? && FailureOf(r).Some?
  {
    var r := Begun(JobFor(id, alert));
    StartIsInv(id, IncomingPath(id), Some(id));
    var i := Answering("", 1);
    GoFromDispatch(h, r, id, d.guard, i);
    var o1 := Step(h, r, d.guard, i);
    GoFromParseLog(h, o1.run, id, o1.guard, i);
    var o2 := Step(h, o1.run, o1.guard, i);
    if InFunds(d.guard, 1) {
      GoFromDiagnosis(h, o2.run, id, o2.guard, "", 1);
      var o3 := Step(h, o2.run, o2.guard, i);
      SupervisorGoesOn(h, o3.run, id, o3.guard);
    } else {
      TripAtDiagnosis(h, o2.run, id, o2.guard, "", 1);
      var o3 := Step(h, o2.run, o2.guard, i);
      AbortEnds(h, o3.run, id, o3.guard, i);
    }
  }

  lemma SupervisorGoesOn(h: Host, r: Run, id: string, g: CostGuard.GuardState)
    requires IsTraceId(id) && On(r, id, Supervisor) && g.currency == CostGuard.CNY
    ensures var o := Step(h, r, g, Answering("", 1));
            Plain(r, o) && o.run.phase.Active()
  {
    if InFunds(g, 1) {
      StepKeepsInv(h, r, g, Answering("", 1));
    }
  }

  lemma AbortEnds(h: Host, r: Run, id: string, g: CostGuard.GuardState, i: Input)
    requires On(r, id, CostExhausted)
    ensures var o := Step(h, r, g, i);
            Plain(r, o) && o.run.phase.Finished? && FailureOf(o.run).Some?
  {
    StepKeepsInv(h, r, g, i);
  }

  lemma AskerReads(h: Host, durable: bool, d: Desk, id: string, alert: Alert)
    requires IsTraceId(id) && Idle(d) && d.guard.currency == CostGuard.CNY && id !in d.sidecars
    ensures var e := History(h, durable, d, Turn(id, alert, Asker()));
            if InFunds(d.guard, 1) then StatusOf(e, id) == Processing else Reads(e, id, Status.Failed)
  {
    AskerTurn(h, d, id, alert);
    Picked(h, durable, d, id, alert);
    TurnEnds(h, durable, d, id, alert, Asker());
  }

  /** Isolation ends with the budget. The first job spends exactly the limit, which is
      allowed; the second one's first call then trips, and it reads "failed". Without the
      first job, the same actions about the second one leave it "processing". */
  lemma BudgetCouplesJobs(h: Host, durable: bool, a: string, b: string, alert: Alert, limit: nat)
    requires IsTraceId(a) && IsTraceId(b) && a != b && limit > 0
    ensures var start := Empty(CostGuard.Opening(limit, CostGuard.CNY));
            var actions := Turn(a, alert, Spender(limit)) + Turn(b, alert, Asker());
            var alone := Only(h, durable, start, actions, b);
            && Reads(History(h, durable, start, actions), b, Status.Failed)
            && StatusOf(History(h, durable, start, alone), b) == Processing
  {
    var start := Empty(CostGuard.Opening(limit, CostGuard.CNY));
    var first, second := Turn(a, alert, Spender(limit)), Turn(b, alert, Asker());
    SpenderTurn(h, start, a, alert, limit);
    TurnEnds(h, durable, start, a, alert, Spender(limit));
    OnlyTurn(h, durable, start, a, alert, Spender(limit), b);
    var mid := History(h, durable, start, first);
    SpenderLeaves(h, start, a, alert, limit);
    AskerReads(h, durable, mid, b, alert);
    HistoryConcat(h, durable, start, first, second);
    AskerTurn(h, mid, b, alert);
    OnlyTurn(h, durable, mid, b, alert, Asker(), b);
    OnlyConcat(h, durable, start, first, second, b);
    assert [] + second == second;
    AskerReads(h, durable, start, b, alert);
  }

  lemma SpenderLeaves(h: Host, d: Desk, a: string, alert: Alert, c: nat)
    requires IsTraceId(a) && Idle(d) && InFunds(d.guard, c)
    ensures var e := Closed(AtEnd(h, d, a, alert, Spender(c)));
            && Idle(e) && e.guard == CostGuard.After(d.guard, c, CostGuard.CNY, 0)
            && (forall id | id in e.sidecars :: id == a || id in d.sidecars)
  {
    SpenderTurn(h, d, a, alert, c);
    Picked(h, true, d, a, alert);
  }
}
