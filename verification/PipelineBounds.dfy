/** How much a run can do: it ends, it makes few calls, and none after its own trip.
    Nothing here depends on how the thread was used before. */
module PipelineBounds {
  import opened Prelude
  import opened Pipeline
  import CostGuard

  // ------------------------------------------------------------ model calls

  function Calls(events: seq<Event>): nat {
    if events == [] then 0 else (if events[0].Called? then 1 else 0) + Calls(events[1..])
  }

  function Attempts(events: seq<Event>): nat {
    if events == [] then 0 else (if events[0].Called? then events[0].attempts else 0) + Attempts(events[1..])
  }

  lemma {:induction false} CountsAdd(x: seq<Event>, y: seq<Event>)
    ensures Calls(x + y) == Calls(x) + Calls(y)
    ensures Attempts(x + y) == Attempts(x) + Attempts(y)
  {
    if x == [] {
      assert x + y == y;
    } else {
      assert (x + y)[1..] == x[1..] + y;
      CountsAdd(x[1..], y);
    }
  }

  /** Only a specialist asks its model again. */
  predicate RetryNode(r: Run) {
    r.phase.Retrying? ==> r.phase.node == CodeFixer || r.phase.node == InfraSre
  }

  /** What a step of a run amounts to, whichever node it is: the node's own run, settled. */
  function StepRun(h: Host, r: Run, g: CostGuard.GuardState, i: Input): NodeRun
    requires r.phase.Active()
  {
    if r.phase.Retrying? then RunRetry(r.phase.node, r.state, g, i)
    else RunNode(h, r.phase.node, r.approved, r.state, g, i)
  }

  lemma StepSettles(h: Host, r: Run, g: CostGuard.GuardState, i: Input)
    requires r.phase.Active()
    ensures Step(h, r, g, i) == Settle(r, r.phase.node, StepRun(h, r, g, i))
  {
  }

  predicate CallsModel(node: Node) {
    node in {Diagnosis, Supervisor, CodeFixer, InfraSre, SecurityReviewer}
  }

  /** The ways a node's run can look from outside: a calling node accounts for one call
      and flags a trip; the others make no call. */
  ghost predicate Shape(p: Phase, n: NodeRun)
    requires p.Active()
  {
    && Calls(n.events) <= (if CallsModel(p.node) then 1 else 0)
    && Attempts(n.events) <= 2 * Calls(n.events)
    && (Tripped in n.events ==> n.events == [n.events[0], Tripped] && n.events[0].Called?)
    && (n.end.Commit? ==> (n.end.update.costExhausted == Set(true) <==> Tripped in n.events))
    && (n.end.Commit? ==> n.end.update.costExhausted != Set(false))
    && (Tripped in n.events ==> n.end.Commit?)
    && (n.end.Interrupt? ==> p == At(SecurityGate))
    && (n.end.CallAgain? ==> p == At(CodeFixer) || p == At(InfraSre))
  }

  lemma CallEventsShape(g: CostGuard.GuardState, traceId: Option<string>, i: Input)
    ensures var events := CallEvents(Complete(g, traceId, i));
            && Calls(events) <= 1 && Attempts(events) <= 2 * Calls(events)
            && (Tripped in events <==> Complete(g, traceId, i).end.OverBudget?)
            && (Tripped in events ==> events == [events[0], Tripped] && events[0].Called?)
            && Calls(events + []) == Calls(events)
            && forall e: Event :: e.Reviewed? ==>
                 Calls(events + [e]) == Calls(events) && Attempts(events + [e]) == Attempts(events)
  {
    var events := CallEvents(Complete(g, traceId, i));
    if |events| == 2 {
      assert events[1..] == [Tripped];
    }
    forall e: Event | e.Reviewed?
      ensures Calls(events + [e]) == Calls(events) && Attempts(events + [e]) == Attempts(events)
    {
      CountsAdd(events, [e]);
    }
    assert events + [] == events;
  }

  lemma DiagnosisShape(h: Host, s: AgentState, g: CostGuard.GuardState, i: Input)
    ensures Shape(At(Diagnosis), RunDiagnosis(h, s, g, i))
  {
    CallEventsShape(g, s.traceId, i);
  }

  lemma SupervisorShape(h: Host, s: AgentState, g: CostGuard.GuardState, i: Input)
    ensures Shape(At(Supervisor), RunSupervisor(h, s, g, i))
  {
    CallEventsShape(g, s.traceId, i);
  }

  lemma SpecialistShape(h: Host, node: Node, s: AgentState, g: CostGuard.GuardState, i: Input)
    requires node == CodeFixer || node == InfraSre
    ensures Shape(At(node), RunSpecialist(h, node, s, g, i))
  {
    CallEventsShape(g, s.traceId, i);
  }

  lemma RetryShape(node: Node, first: string, s: AgentState, g: CostGuard.GuardState, i: Input)
    requires node == CodeFixer || node == InfraSre
    ensures Shape(Retrying(node, first), RunRetry(node, s, g, i))
  {
    CallEventsShape(g, s.traceId, i);
  }

  lemma ReviewerShape(h: Host, s: AgentState, g: CostGuard.GuardState, i: Input)
    ensures Shape(At(SecurityReviewer), RunReviewer(h, s, g, i))
  {
    CallEventsShape(g, s.traceId, i);
  }

  lemma QuietShape(h: Host, node: Node, approved: bool, s: AgentState, g: CostGuard.GuardState, i: Input)
    requires !CallsModel(node)
    ensures Shape(At(node), RunNode(h, node, approved, s, g, i))
  {
  }

  lemma StepHasShape(h: Host, r: Run, g: CostGuard.GuardState, i: Input)
    requires RetryNode(r) && r.phase.Active()
    ensures Shape(r.phase, StepRun(h, r, g, i))
  {
    match r.phase
    case Retrying(node, first) => RetryShape(node, first, r.state, g, i);
    case At(Diagnosis) => DiagnosisShape(h, r.state, g, i);
    case At(Supervisor) => SupervisorShape(h, r.state, g, i);
    case At(CodeFixer) => SpecialistShape(h, CodeFixer, r.state, g, i);
    case At(InfraSre) => SpecialistShape(h, InfraSre, r.state, g, i);
    case At(SecurityReviewer) => ReviewerShape(h, r.state, g, i);
    case At(node) => QuietShape(h, node, r.approved, r.state, g, i);
  }

  lemma StepKeepsRetryNode(h: Host, r: Run, g: CostGuard.GuardState, i: Input)
    requires RetryNode(r)
    ensures RetryNode(Step(h, r, g, i).run)
  {
    if r.phase.Active() {
      StepSettles(h, r, g, i);
      StepHasShape(h, r, g, i);
    }
  }

  // ------------------------------------------------------------- termination

  function Rank(p: Phase): nat {
    match p
    case At(Dispatch) => 12
    case At(ParseLog) => 11
    case At(Diagnosis) => 10
    case At(Supervisor) => 9
    case At(CodeFixer) => 8
    case At(InfraSre) => 8
    case Retrying(_, _) => 7
    case At(SecurityReviewer) => 6
    case At(SecurityGate) => 5
    case At(Verification) => 4
    case At(FormatReport) => 3
    case At(CostExhausted) => 2
    case _ => 0
  }

  lemma SettleLowersRank(r: Run, n: NodeRun)
    requires RetryNode(r) && r.phase.Active() && Shape(r.phase, n)
    ensures Rank(Settle(r, r.phase.node, n).run.phase) < Rank(r.phase)
  {
  }

  lemma StepLowersRank(h: Host, r: Run, g: CostGuard.GuardState, i: Input)
    requires RetryNode(r) && r.phase.Active()
    ensures Rank(Step(h, r, g, i).run.phase) < Rank(r.phase)
  {
    StepSettles(h, r, g, i);
    StepHasShape(h, r, g, i);
    SettleLowersRank(r, StepRun(h, r, g, i));
  }

  /** As many steps as the rank are enough to end a segment. */
  lemma {:induction false} SegmentTerminates(h: Host, r: Run, moments: seq<Moment>)
    requires RetryNode(r) && Rank(r.phase) <= |moments|
    ensures !Follow(h, r, moments).run.phase.Active()
    decreases |moments|
  {
    if moments != [] {
      var (g, i) := moments[0];
      StepKeepsRetryNode(h, r, g, i);
      if r.phase.Active() {
        StepLowersRank(h, r, g, i);
      }
      SegmentTerminates(h, Step(h, r, g, i).run, moments[1..]);
    }
  }

  /** Model calls still open to a run: one per agent and one retry. */
  function CallsLeft(p: Phase): nat {
    match p
    case At(Dispatch) => 5
    case At(ParseLog) => 5
    case At(Diagnosis) => 5
    case At(Supervisor) => 4
    case At(CodeFixer) => 3
    case At(InfraSre) => 3
    case Retrying(_, _) => 2
    case At(SecurityReviewer) => 1
    case _ => 0
  }

  /** The events of one step, given where the run stands and where it goes. */
  ghost predicate StepEvents(r: Run, o: Stepped) {
    && Calls(o.events) <= 1 && Attempts(o.events) <= 2 * Calls(o.events)
    && Calls(o.events) + CallsLeft(o.run.phase) <= CallsLeft(r.phase)
    && (Tripped in o.events ==>
          o.events == [o.events[0], Tripped] && o.events[0].Called? && o.run.phase == At(CostExhausted))
    && (o.run.state.costExhausted <==> r.state.costExhausted || Tripped in o.events)
  }

  /** Going on costs a calling node one of the calls still open. */
  lemma SuccessorHasFewerCalls(p: Phase, s: AgentState)
    requires p.Active() && (p.Retrying? ==> p.node == CodeFixer || p.node == InfraSre)
    ensures CallsLeft(Successor(p.node, s)) + (if CallsModel(p.node) then 1 else 0) <= CallsLeft(p)
    ensures s.costExhausted && CallsModel(p.node) ==> Successor(p.node, s) == At(CostExhausted)
  {
  }

  lemma SettleEvents(r: Run, n: NodeRun)
    requires RetryNode(r) && r.phase.Active() && Shape(r.phase, n)
    ensures StepEvents(r, Settle(r, r.phase.node, n))
  {
    if n.end.Commit? {
      var s := Merge(r.state, n.end.update);
      SuccessorHasFewerCalls(r.phase, s);
      assert s.costExhausted <==> r.state.costExhausted || Tripped in n.events;
    } else if n.end.Interrupt? {
      CountsAdd(n.events, [Paused]);
    }
  }

  lemma StepEventsHold(h: Host, r: Run, g: CostGuard.GuardState, i: Input)
    requires RetryNode(r)
    ensures StepEvents(r, Step(h, r, g, i))
  {
    if r.phase.Active() {
      StepSettles(h, r, g, i);
      StepHasShape(h, r, g, i);
      SettleEvents(r, StepRun(h, r, g, i));
    }
  }

  /** A run makes at most the calls still open to it, each of at most two attempts. */
  lemma {:induction false} CallsBounded(h: Host, r: Run, moments: seq<Moment>)
    requires RetryNode(r)
    ensures var t := Follow(h, r, moments);
            Calls(t.events) + CallsLeft(t.run.phase) <= CallsLeft(r.phase)
            && Attempts(t.events) <= 2 * Calls(t.events)
    decreases |moments|
  {
    if moments != [] {
      var (g, i) := moments[0];
      var one := Step(h, r, g, i);
      StepKeepsRetryNode(h, r, g, i);
      StepEventsHold(h, r, g, i);
      CallsBounded(h, one.run, moments[1..]);
      CountsAdd(one.events, Follow(h, one.run, moments[1..]).events);
    }
  }

  /** Five calls and ten provider attempts are the most a whole run can make. */
  lemma FiveCallsTenAttempts(h: Host, thread: string, logPath: string, traceId: Option<string>,
                             moments: seq<Moment>)
    ensures var events := Follow(h, Pipeline.Start(thread, logPath, traceId), moments).events;
            Calls(events) <= 5 && Attempts(events) <= 10
  {
    CallsBounded(h, Pipeline.Start(thread, logPath, traceId), moments);
  }

  // ------------------------------------------------ silence after its own trip

  ghost predicate SilentAfterTrip(events: seq<Event>) {
    forall j, k | 0 <= j < k < |events| :: events[j] == Tripped ==> !events[k].Called? && events[k] != Tripped
  }

  lemma {:induction false} NoCallsNoMembers(events: seq<Event>)
    requires Calls(events) == 0
    ensures forall k | 0 <= k < |events| :: !events[k].Called?
  {
    if events != [] {
      NoCallsNoMembers(events[1..]);
      assert events == [events[0]] + events[1..];
    }
  }

  /** A step that did not trip leaves the rest to itself; one that did ends all calls. */
  lemma SilenceJoins(x: seq<Event>, y: seq<Event>)
    requires SilentAfterTrip(y)
    requires Tripped in x ==> x == [x[0], Tripped] && Calls(y) == 0 && Tripped !in y
    requires x != [] && Tripped in x ==> x[0] != Tripped
    ensures SilentAfterTrip(x + y)
  {
    if Tripped in x {
      NoCallsNoMembers(y);
    }
  }

  /** Once its own accumulate has raised, a run issues no further call, not even the
      retry of its specialist, however much budget other runs see. */
  lemma {:induction false} SilenceAfterTrip(h: Host, r: Run, moments: seq<Moment>)
    requires RetryNode(r)
    ensures SilentAfterTrip(Follow(h, r, moments).events)
    ensures CallsLeft(r.phase) == 0 ==> Tripped !in Follow(h, r, moments).events
    decreases |moments|
  {
    if moments != [] {
      var (g, i) := moments[0];
      var one := Step(h, r, g, i);
      StepKeepsRetryNode(h, r, g, i);
      StepEventsHold(h, r, g, i);
      SilenceAfterTrip(h, one.run, moments[1..]);
      CallsBounded(h, one.run, moments[1..]);
      SilenceJoins(one.events, Follow(h, one.run, moments[1..]).events);
    }
  }

  // ------------------------------------------------ exactly when a step spends

  /** The step asks a model: it stands at a calling node and its trace id is well formed. */
  predicate Asks(r: Run) {
    r.phase.Active() && CallsModel(r.phase.node) && IsTraceId(r.state.traceId.GetOr(""))
  }

  /** The cost that the step hands to the guard, if its request is answered. */
  function Bill(r: Run, i: Input): Option<nat> {
    var last := if i.first.TimedOut? then i.second else i.first;
    if Asks(r) && last.Answered? && last.cost >= 0 then Some(last.cost) else None
  }

  predicate Overruns(g: CostGuard.GuardState, bill: Option<nat>) {
    bill.Some? && g.totalSpent + bill.value > g.budgetLimit
  }

  function Charged(g: CostGuard.GuardState, bill: Option<nat>, now: int): CostGuard.GuardState {
    match bill
    case None => g
    case Some(cost) => CostGuard.After(g, cost, CostGuard.CNY, now)
  }

  lemma CallBills(r: Run, g: CostGuard.GuardState, i: Input)
    requires r.phase.Active() && CallsModel(r.phase.node) && g.currency == CostGuard.CNY
    ensures var call := Complete(g, r.state.traceId, i);
            && Calls(CallEvents(call)) == (if Asks(r) then 1 else 0)
            && (call.end.OverBudget? <==> Overruns(g, Bill(r, i)))
            && call.guard == Charged(g, Bill(r, i), i.now)
  {
    var call := Complete(g, r.state.traceId, i);
    if call.end.OverBudget? {
      assert CallEvents(call)[1..] == [Tripped];
      assert [Tripped][1..] == [];
    } else if Asks(r) {
      assert CallEvents(call)[1..] == [];
    }
  }

  /** A calling node leaves the guard and the count of calls as its call left them. */
  lemma NodeCalls(h: Host, r: Run, g: CostGuard.GuardState, i: Input)
    requires r.phase.Active() && RetryNode(r)
    ensures var n := StepRun(h, r, g, i);
            var call := Complete(g, r.state.traceId, i);
            if CallsModel(r.phase.node)
            then n.guard == call.guard && Calls(n.events) == Calls(CallEvents(call))
                 && (Tripped in n.events <==> call.end.OverBudget?)
            else n.guard == g && Calls(n.events) == 0 && Tripped !in n.events
  {
    CallEventsShape(g, r.state.traceId, i);
  }

  /** Whatever the guard is, a step makes a call exactly when it stands at a calling node
      with a well-formed trace id; the call trips exactly when it is answered and takes
      the total over the limit; and the guard is charged what was answered, no more. */
  lemma SpendsExactly(h: Host, r: Run, g: CostGuard.GuardState, i: Input)
    requires RetryNode(r) && g.currency == CostGuard.CNY
    ensures var o := Step(h, r, g, i);
            && Calls(o.events) == (if Asks(r) then 1 else 0)
            && (Tripped in o.events <==> Overruns(g, Bill(r, i)))
            && o.guard == Charged(g, Bill(r, i), i.now)
  {
    if r.phase.Active() {
      StepSettles(h, r, g, i);
      NodeCalls(h, r, g, i);
      var n := StepRun(h, r, g, i);
      CountsAdd(n.events, [Paused]);
      assert Tripped in n.events + [Paused] <==> Tripped in n.events;
      if CallsModel(r.phase.node) {
        CallBills(r, g, i);
      }
    }
  }

  /** So on a spent budget the guard stops nothing beforehand: a call is made all the same,
      and trips exactly when it is answered and costs something or the total was already
      over. */
  lemma SpentBudgetStillAsks(h: Host, r: Run, g: CostGuard.GuardState, i: Input)
    requires RetryNode(r) && g.currency == CostGuard.CNY && g.totalSpent >= g.budgetLimit
    ensures var o := Step(h, r, g, i);
            && (Calls(o.events) == 1 <==> Asks(r))
            && (Tripped in o.events <==>
                  Bill(r, i).Some? && (Bill(r, i).value > 0 || g.totalSpent > g.budgetLimit))
  {
    SpendsExactly(h, r, g, i);
  }
}
