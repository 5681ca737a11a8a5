/** How far jobs interfere. They share nothing but the worker's time and the budget guard:
    after one action, what can be seen of an id is what a gateway that had only ever served
    that id would show, exactly if the guard gives its call the same verdict in both. */
module GatewayIsolation {
  import opened Prelude
  import opened Pipeline
  import opened PipelineProofs
  import opened Gateway
  import opened GatewayProofs
  import CostGuard
  import PipelineBounds

  /** The id an action is about, in the state it is taken in. */
  function Owner(d: Desk, a: Action): Option<string> {
    match a
    case Ingest(header, token, _) => JobIdFor(header, token)
    case Take => if d.current.None? && d.queue != [] then Some(d.queue[0].jobId) else None
    case Advance(_) => if d.current.Some? then Some(d.current.value.job.jobId) else None
    case Close => if d.current.Some? then Some(d.current.value.job.jobId) else None
    case Reopen(id) => Some(id)
    case AdvanceResumed(id, _, _) => Some(id)
    case Restart(_) => None
  }

  /** A restart is about every id. */
  predicate Concerns(d: Desk, a: Action, id: string) {
    a.Restart? || Owner(d, a) == Some(id)
  }

  /** The actions of a history that are about one id. */
  function Only(h: Host, durable: bool, d: Desk, actions: seq<Action>, id: string): seq<Action>
    decreases |actions|
  {
    if actions == [] then []
    else (if Concerns(d, actions[0], id) then [actions[0]] else [])
         + Only(h, durable, Act(h, durable, d, actions[0]), actions[1..], id)
  }

  function Share(queue: seq<AlertJob>, id: string): seq<AlertJob> {
    if queue == [] then []
    else (if queue[0].jobId == id then [queue[0]] else []) + Share(queue[1..], id)
  }

  ghost predicate SameAt<V>(x: map<string, V>, y: map<string, V>, id: string) {
    (id in x <==> id in y) && (id in x ==> x[id] == y[id])
  }

  /** The two gateways agree on all there is about `id`; the second has nothing else at
      work. Their guards may differ. */
  ghost predicate Agree(d: Desk, e: Desk, id: string) {
    && SameAt(d.incoming, e.incoming, id)
    && SameAt(d.sidecars, e.sidecars, id)
    && SameAt(d.parked, e.parked, id)
    && SameAt(d.resumed, e.resumed, id)
    && e.queue == Share(d.queue, id)
    && e.current == if d.current.Some? && d.current.value.job.jobId == id then d.current else None
  }

  ghost predicate InYuan(d: Desk, e: Desk) {
    d.guard.currency == CostGuard.CNY && e.guard.currency == CostGuard.CNY
  }

  // --------------------------------------------- one step under two guards

  /** The guards treat the step alike: its call trips in both or in neither, and a run on
      its way out finds the same total to write down. */
  ghost predicate SameVerdict(r: Run, g: CostGuard.GuardState, g': CostGuard.GuardState, i: Input) {
    && (PipelineBounds.Overruns(g, PipelineBounds.Bill(r, i))
        <==> PipelineBounds.Overruns(g', PipelineBounds.Bill(r, i)))
    && (r.phase == At(CostExhausted) ==> g.totalSpent == g'.totalSpent)
  }

  /** The two calls end alike after as many attempts. */
  ghost predicate SameCall(s: AgentState, g: CostGuard.GuardState, g': CostGuard.GuardState, i: Input) {
    var call, call' := Complete(g, s.traceId, i), Complete(g', s.traceId, i);
    call.end == call'.end && call.attempts == call'.attempts
  }

  ghost predicate SameRun(n: NodeRun, n': NodeRun) {
    n.end == n'.end && n.events == n'.events
  }

  lemma SameEnd(r: Run, g: CostGuard.GuardState, g': CostGuard.GuardState, i: Input)
    requires r.phase.Active() && PipelineBounds.CallsModel(r.phase.node)
    requires g.currency == CostGuard.CNY && g'.currency == CostGuard.CNY && SameVerdict(r, g, g', i)
    ensures SameCall(r.state, g, g', i)
  {
  }

  lemma SameDiagnosis(h: Host, s: AgentState, g: CostGuard.GuardState, g': CostGuard.GuardState, i: Input)
    requires SameCall(s, g, g', i)
    ensures SameRun(RunDiagnosis(h, s, g, i), RunDiagnosis(h, s, g', i))
  {
  }

  lemma SameSupervisor(h: Host, s: AgentState, g: CostGuard.GuardState, g': CostGuard.GuardState, i: Input)
    requires SameCall(s, g, g', i)
    ensures SameRun(RunSupervisor(h, s, g, i), RunSupervisor(h, s, g', i))
  {
  }

  lemma SameSpecialist(h: Host, node: Node, s: AgentState, g: CostGuard.GuardState, g': CostGuard.GuardState, i: Input)
    requires SameCall(s, g, g', i)
    ensures SameRun(RunSpecialist(h, node, s, g, i), RunSpecialist(h, node, s, g', i))
  {
  }

  lemma SameRetry(node: Node, s: AgentState, g: CostGuard.GuardState, g': CostGuard.GuardState, i: Input)
    requires SameCall(s, g, g', i)
    ensures SameRun(RunRetry(node, s, g, i), RunRetry(node, s, g', i))
  {
  }

  lemma SameReview(h: Host, s: AgentState, g: CostGuard.GuardState, g': CostGuard.GuardState, i: Input)
    requires SameCall(s, g, g', i)
    ensures SameRun(RunReviewer(h, s, g, i), RunReviewer(h, s, g', i))
  {
  }

  lemma SameQuietRun(h: Host, r: Run, g: CostGuard.GuardState, g': CostGuard.GuardState, i: Input)
    requires r.phase.At? && !PipelineBounds.CallsModel(r.phase.node)
    requires r.phase == At(CostExhausted) ==> g.totalSpent == g'.totalSpent
    ensures SameRun(PipelineBounds.StepRun(h, r, g, i), PipelineBounds.StepRun(h, r, g', i))
  {
  }

  lemma SameNodeRun(h: Host, r: Run, g: CostGuard.GuardState, g': CostGuard.GuardState, i: Input)
    requires r.phase.Active() && PipelineBounds.RetryNode(r)
    requires PipelineBounds.CallsModel(r.phase.node) ==> SameCall(r.state, g, g', i)
    requires r.phase == At(CostExhausted) ==> g.totalSpent == g'.totalSpent
    ensures SameRun(PipelineBounds.StepRun(h, r, g, i), PipelineBounds.StepRun(h, r, g', i))
  {
    match r.phase
    case Retrying(node, _) => SameRetry(node, r.state, g, g', i);
    case At(Diagnosis) => SameDiagnosis(h, r.state, g, g', i);
    case At(Supervisor) => SameSupervisor(h, r.state, g, g', i);
    case At(CodeFixer) => SameSpecialist(h, CodeFixer, r.state, g, g', i);
    case At(InfraSre) => SameSpecialist(h, InfraSre, r.state, g, g', i);
    case At(SecurityReviewer) => SameReview(h, r.state, g, g', i);
    case At(_) => SameQuietRun(h, r, g, g', i);
  }

  lemma SameSettling(r: Run, node: Node, n: NodeRun, n': NodeRun)
    requires SameRun(n, n')
    ensures Settle(r, node, n).run == Settle(r, node, n').run
    ensures Settle(r, node, n).events == Settle(r, node, n').events
  {
  }

  /** What the node does, if the guards treat the step alike. */
  lemma SameWork(h: Host, r: Run, g: CostGuard.GuardState, g': CostGuard.GuardState, i: Input)
    requires r.phase.Active() && PipelineBounds.RetryNode(r)
    requires g.currency == CostGuard.CNY && g'.currency == CostGuard.CNY && SameVerdict(r, g, g', i)
    ensures SameRun(PipelineBounds.StepRun(h, r, g, i), PipelineBounds.StepRun(h, r, g', i))
  {
    if PipelineBounds.CallsModel(r.phase.node) {
      SameEnd(r, g, g', i);
    }
    SameNodeRun(h, r, g, g', i);
  }

  /** A step, and the run of its node behind it. */
  ghost predicate SettledFrom(r: Run, n: NodeRun, one: Stepped) {
    if r.phase.Active() then one == Settle(r, r.phase.node, n) else one.run == r && one.events == []
  }

  lemma SameOutcome(r: Run, n: NodeRun, n': NodeRun, one: Stepped, one': Stepped)
    requires SettledFrom(r, n, one) && SettledFrom(r, n', one') && (r.phase.Active() ==> SameRun(n, n'))
    ensures one.run == one'.run && one.events == one'.events
  {
    if r.phase.Active() {
      SameSettling(r, r.phase.node, n, n');
    }
  }

  lemma CallingRunHasNoFlag(r: Run)
    requires RunInv(r) && r.phase.Active() && PipelineBounds.CallsModel(r.phase.node)
    ensures !r.state.costExhausted
  {
  }

  /** A step has the same effect on a run under two guards exactly when they treat it
      alike. */
  lemma SameStepIff(h: Host, r: Run, g: CostGuard.GuardState, g': CostGuard.GuardState, i: Input,
                    one: Stepped, one': Stepped)
    requires RunInv(r) && one == Step(h, r, g, i) && one' == Step(h, r, g', i)
    requires g.currency == CostGuard.CNY && g'.currency == CostGuard.CNY
    ensures one.run == one'.run <==> SameVerdict(r, g, g', i)
    ensures one.run == one'.run ==> one.events == one'.events
  {
    if SameVerdict(r, g, g', i) {
      if r.phase.Active() {
        PipelineBounds.StepSettles(h, r, g, i);
        PipelineBounds.StepSettles(h, r, g', i);
        SameWork(h, r, g, g', i);
        SameOutcome(r, PipelineBounds.StepRun(h, r, g, i), PipelineBounds.StepRun(h, r, g', i), one, one');
      }
    } else if r.phase == At(CostExhausted) {
      AbortNotesTotal(h, r, g, i);
      AbortNotesTotal(h, r, g', i);
    } else {
      CallingRunHasNoFlag(r);
      PipelineBounds.SpendsExactly(h, r, g, i);
      PipelineBounds.SpendsExactly(h, r, g', i);
      PipelineBounds.StepEventsHold(h, r, g, i);
      PipelineBounds.StepEventsHold(h, r, g', i);
    }
  }

  lemma AbortNotesTotal(h: Host, r: Run, g: CostGuard.GuardState, i: Input)
    requires r.phase == At(CostExhausted)
    ensures Step(h, r, g, i).run.state.costAccumulated == Some(g.totalSpent)
  {
  }

  // ------------------------------------------------------ actions about others

  lemma {:induction false} ShareOfMore(queue: seq<AlertJob>, job: AlertJob, id: string)
    ensures Share(queue + [job], id) == Share(queue, id) + if job.jobId == id then [job] else []
  {
    var longer, last := queue + [job], if job.jobId == id then [job] else [];
    if queue == [] {
      assert longer[1..] == [];
      assert Share([], id) == [];
    } else {
      var head := if queue[0].jobId == id then [queue[0]] else [];
      ShareOfMore(queue[1..], job, id);
      assert longer[0] == queue[0] && longer[1..] == queue[1..] + [job];
      calc {
        Share(longer, id);
        head + Share(queue[1..] + [job], id);
        head + (Share(queue[1..], id) + last);
        (head + Share(queue[1..], id)) + last;
        Share(queue, id) + last;
      }
    }
  }

  lemma NotedElsewhere(durable: bool, d: Desk, r: Run, one: Stepped, id: string)
    requires r.thread != id && one.run.thread == r.thread
    ensures var e := Noted(durable, d, r, one);
            SameAt(e.sidecars, d.sidecars, id) && SameAt(e.parked, d.parked, id)
  {
  }

  lemma OthersAdvance(h: Host, durable: bool, d: Desk, e: Desk, i: Input, id: string)
    requires DeskInv(d) && Agree(d, e, id) && !Concerns(d, Advance(i), id)
    ensures Agree(Worked(h, durable, d, i), e, id)
  {
    if d.current.Some? {
      var run := d.current.value.run;
      var one := Step(h, run, d.guard, i);
      StepReports(h, run, d.guard, i);
      NotedElsewhere(durable, d, run, one, id);
    }
  }

  lemma OthersAdvanceResumed(h: Host, durable: bool, d: Desk, e: Desk, other: string, k: nat, i: Input,
                             id: string)
    requires DeskInv(d) && Agree(d, e, id) && other != id
    ensures Agree(ResumeWorked(h, durable, d, other, k, i), e, id)
  {
    if other in d.resumed && k < |d.resumed[other]| {
      var run := d.resumed[other][k];
      var one := Step(h, run, d.guard, i);
      StepReports(h, run, d.guard, i);
      NotedElsewhere(durable, d, run, one, id);
    }
  }

  lemma OthersIngest(d: Desk, e: Desk, header: Option<string>, token: string, alert: Alert, id: string)
    requires Agree(d, e, id) && JobIdFor(header, token) != Some(id)
    ensures Agree(Ingested(d, header, token, alert), e, id)
  {
    if JobIdFor(header, token).Some? {
      ShareOfMore(d.queue, JobFor(JobIdFor(header, token).value, alert), id);
    }
  }

  lemma OthersTakeOrClose(d: Desk, e: Desk, id: string)
    requires Agree(d, e, id)
    ensures !Concerns(d, Take, id) ==> Agree(Taken(d), e, id)
    ensures !Concerns(d, Close, id) ==> Agree(Closed(d), e, id)
  {
  }

  lemma OthersAct(h: Host, durable: bool, d: Desk, e: Desk, a: Action, id: string)
    requires DeskInv(d) && Agree(d, e, id) && !Concerns(d, a, id)
    ensures Agree(Act(h, durable, d, a), e, id)
  {
    match a
    case Ingest(header, token, alert) => OthersIngest(d, e, header, token, alert, id);
    case Advance(i) => OthersAdvance(h, durable, d, e, i, id);
    case AdvanceResumed(other, k, i) => OthersAdvanceResumed(h, durable, d, e, other, k, i, id);
    case Reopen(_) =>
    case _ => OthersTakeOrClose(d, e, id);
  }

  // ------------------------------------------------------ actions about the id

  lemma NotedHere(durable: bool, d: Desk, e: Desk, r: Run, one: Stepped, one': Stepped, id: string)
    requires r.thread == id && one.run.thread == id && one.run == one'.run && one.events == one'.events
    requires SameAt(d.sidecars, e.sidecars, id) && SameAt(d.parked, e.parked, id)
    ensures var d', e' := Noted(durable, d, r, one), Noted(durable, e, r, one');
            SameAt(d'.sidecars, e'.sidecars, id) && SameAt(d'.parked, e'.parked, id)
  {
  }

  /** The outcomes of a step of `r` in the one gateway and in the other. */
  ghost predicate Outcomes(r: Run, one: Stepped, one': Stepped) {
    && one.run.thread == r.thread && one'.run.thread == r.thread
    && (one.run == one'.run ==> one.events == one'.events)
  }

  lemma OwnerAdvances(durable: bool, d: Desk, e: Desk, id: string, one: Stepped, one': Stepped)
    requires DeskInv(d) && Agree(d, e, id) && d.current.Some? && d.current.value.job.jobId == id
    requires Outcomes(d.current.value.run, one, one')
    ensures var Work(job, run) := d.current.value;
            Agree(Noted(durable, d, run, one).(current := Some(Work(job, one.run))),
                  Noted(durable, e, run, one').(current := Some(Work(job, one'.run))), id)
            <==> one.run == one'.run
  {
    if one.run == one'.run {
      NotedHere(durable, d, e, d.current.value.run, one, one', id);
    }
  }

  lemma OwnerAdvancesResumed(durable: bool, d: Desk, e: Desk, k: nat, id: string, one: Stepped, one': Stepped)
    requires DeskInv(d) && Agree(d, e, id) && id in d.resumed && k < |d.resumed[id]|
    requires Outcomes(d.resumed[id][k], one, one')
    ensures var runs := d.resumed[id];
            Agree(Noted(durable, d, runs[k], one).(resumed := d.resumed[id := runs[k := one.run]]),
                  Noted(durable, e, runs[k], one').(resumed := e.resumed[id := runs[k := one'.run]]), id)
            <==> one.run == one'.run
  {
    assert RunOf(d, id, d.resumed[id][k]);
    if one.run == one'.run {
      NotedHere(durable, d, e, d.resumed[id][k], one, one', id);
    } else {
      DifferAt(d.resumed[id], k, one.run, one'.run);
    }
  }

  lemma DifferAt(s: seq<Run>, k: nat, x: Run, y: Run)
    requires k < |s| && x != y
    ensures s[k := x] != s[k := y]
  {
    assert s[k := x][k] == x && s[k := y][k] == y;
  }

  lemma OwnerIngests(d: Desk, e: Desk, header: Option<string>, token: string, alert: Alert, id: string)
    requires Agree(d, e, id) && JobIdFor(header, token) == Some(id)
    ensures Agree(Ingested(d, header, token, alert), Ingested(e, header, token, alert), id)
  {
    ShareOfMore(d.queue, JobFor(id, alert), id);
  }

  lemma OwnerTakes(d: Desk, e: Desk, id: string)
    requires Agree(d, e, id) && Concerns(d, Take, id)
    ensures Agree(Taken(d), Taken(e), id)
  {
  }

  lemma OwnerCloses(d: Desk, e: Desk, id: string)
    requires Agree(d, e, id) && Concerns(d, Close, id)
    ensures Agree(Closed(d), Closed(e), id)
  {
    if d.current.value.run.phase.Active() {
      assert Closed(d) == d && Closed(e) == e;
    } else {
      assert SameAt(Closed(d).sidecars, Closed(e).sidecars, id);
    }
  }

  lemma OwnerReopens(d: Desk, e: Desk, id: string)
    requires Agree(d, e, id)
    ensures Agree(Reopened(d, id), Reopened(e, id), id)
  {
  }

  lemma AllRestart(d: Desk, e: Desk, budgetLimit: nat, id: string)
    requires Agree(d, e, id)
    ensures Agree(Restarted(d, budgetLimit), Restarted(e, budgetLimit), id)
  {
  }

  lemma StepsHaveOutcomes(h: Host, r: Run, g: CostGuard.GuardState, g': CostGuard.GuardState, i: Input,
                          one: Stepped, one': Stepped)
    requires RunInv(r) && one == Step(h, r, g, i) && one' == Step(h, r, g', i)
    requires g.currency == CostGuard.CNY && g'.currency == CostGuard.CNY
    ensures Outcomes(r, one, one') && (one.run == one'.run <==> SameVerdict(r, g, g', i))
  {
    StepReports(h, r, g, i);
    StepReports(h, r, g', i);
    SameStepIff(h, r, g, g', i, one, one');
  }

  lemma OwnerSteps(h: Host, durable: bool, d: Desk, e: Desk, i: Input, id: string)
    requires DeskInv(d) && InYuan(d, e) && Agree(d, e, id) && Concerns(d, Advance(i), id)
    ensures Agree(Worked(h, durable, d, i), Worked(h, durable, e, i), id)
            <==> SameVerdict(d.current.value.run, d.guard, e.guard, i)
  {
    var run := d.current.value.run;
    var one, one' := Step(h, run, d.guard, i), Step(h, run, e.guard, i);
    StepsHaveOutcomes(h, run, d.guard, e.guard, i, one, one');
    OwnerAdvances(durable, d, e, id, one, one');
  }

  lemma OwnerStepsResumed(h: Host, durable: bool, d: Desk, e: Desk, k: nat, i: Input, id: string)
    requires DeskInv(d) && InYuan(d, e) && Agree(d, e, id) && id in d.resumed && k < |d.resumed[id]|
    ensures Agree(ResumeWorked(h, durable, d, id, k, i), ResumeWorked(h, durable, e, id, k, i), id)
            <==> SameVerdict(d.resumed[id][k], d.guard, e.guard, i)
  {
    var run := d.resumed[id][k];
    var one, one' := Step(h, run, d.guard, i), Step(h, run, e.guard, i);
    assert RunOf(d, id, run);
    StepsHaveOutcomes(h, run, d.guard, e.guard, i, one, one');
    OwnerAdvancesResumed(durable, d, e, k, id, one, one');
  }

  /** The two guards treat the action's step, if it is one, alike. */
  ghost predicate SameTreatment(d: Desk, e: Desk, a: Action) {
    match a
    case Advance(i) => d.current.Some? ==> SameVerdict(d.current.value.run, d.guard, e.guard, i)
    case AdvanceResumed(id, k, i) =>
      id in d.resumed && k < |d.resumed[id]| ==> SameVerdict(d.resumed[id][k], d.guard, e.guard, i)
    case _ => true
  }

  lemma OwnerActs(h: Host, durable: bool, d: Desk, e: Desk, a: Action, id: string)
    requires DeskInv(d) && InYuan(d, e) && Agree(d, e, id) && Concerns(d, a, id)
    ensures Agree(Act(h, durable, d, a), Act(h, durable, e, a), id) <==> SameTreatment(d, e, a)
  {
    match a
    case Ingest(header, token, alert) => OwnerIngests(d, e, header, token, alert, id);
    case Take => OwnerTakes(d, e, id);
    case Advance(i) => OwnerSteps(h, durable, d, e, i, id);
    case Close => OwnerCloses(d, e, id);
    case Reopen(_) => OwnerReopens(d, e, id);
    case AdvanceResumed(_, k, i) =>
      if id in d.resumed && k < |d.resumed[id]| {
        OwnerStepsResumed(h, durable, d, e, k, i, id);
      }
    case Restart(budgetLimit) => AllRestart(d, e, budgetLimit, id);
  }
}
