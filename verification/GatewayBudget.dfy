/** When jobs interfere: exactly when the shared guard gives their calls other verdicts, and
    never while the total stays within the limit. */
module GatewayBudget {
  import opened Prelude
  import opened Pipeline
  import opened PipelineProofs
  import opened Gateway
  import opened GatewayProofs
  import opened GatewayIsolation
  import CostGuard
  import PipelineBounds

  // ------------------------------------------------------------------- spending

  /** What an action spends. */
  function Spending(d: Desk, a: Action): Option<nat> {
    match a
    case Advance(i) => if d.current.Some? then PipelineBounds.Bill(d.current.value.run, i) else None
    case AdvanceResumed(id, k, i) =>
      if id in d.resumed && k < |d.resumed[id]| then PipelineBounds.Bill(d.resumed[id][k], i) else None
    case _ => None
  }

  /** The guard after a step that spends `bill`. */
  ghost predicate Spent(g: CostGuard.GuardState, g': CostGuard.GuardState, bill: Option<nat>) {
    && g'.currency == g.currency && g'.budgetLimit == g.budgetLimit
    && g'.totalSpent == g.totalSpent + bill.GetOr(0)
  }

  lemma StepSpends(h: Host, r: Run, g: CostGuard.GuardState, i: Input)
    requires RunInv(r) && g.currency == CostGuard.CNY
    ensures Spent(g, Step(h, r, g, i).guard, PipelineBounds.Bill(r, i))
  {
    PipelineBounds.SpendsExactly(h, r, g, i);
  }

  lemma AdvanceSpends(h: Host, durable: bool, d: Desk, i: Input)
    requires DeskInv(d) && d.guard.currency == CostGuard.CNY
    ensures Spent(d.guard, Worked(h, durable, d, i).guard, Spending(d, Advance(i)))
  {
    if d.current.Some? {
      StepSpends(h, d.current.value.run, d.guard, i);
    }
  }

  lemma AdvanceResumedSpends(h: Host, durable: bool, d: Desk, id: string, k: nat, i: Input)
    requires DeskInv(d) && d.guard.currency == CostGuard.CNY
    ensures Spent(d.guard, ResumeWorked(h, durable, d, id, k, i).guard, Spending(d, AdvanceResumed(id, k, i)))
  {
    if id in d.resumed && k < |d.resumed[id]| {
      assert RunOf(d, id, d.resumed[id][k]);
      StepSpends(h, d.resumed[id][k], d.guard, i);
    }
  }

  lemma ActSpends(h: Host, durable: bool, d: Desk, a: Action)
    requires DeskInv(d) && d.guard.currency == CostGuard.CNY
    ensures var g := Act(h, durable, d, a).guard;
            if a.Restart? then g == CostGuard.Opening(a.budgetLimit, CostGuard.CNY)
            else Spent(d.guard, g, Spending(d, a))
  {
    match a
    case Advance(i) => AdvanceSpends(h, durable, d, i);
    case AdvanceResumed(id, k, i) => AdvanceResumedSpends(h, durable, d, id, k, i);
    case _ =>
  }

  // ------------------------------------------------------------ the exact condition

  function Partner(h: Host, durable: bool, d: Desk, e: Desk, a: Action, id: string): Desk {
    if Concerns(d, a, id) then Act(h, durable, e, a) else e
  }

  /** Every step about `id` is treated alike by the guard of the full history and by that
      of the history without the other ids. */
  ghost predicate Undisturbed(h: Host, durable: bool, d: Desk, e: Desk, actions: seq<Action>, id: string)
    decreases |actions|
  {
    actions == []
    || (&& (Concerns(d, actions[0], id) ==> SameTreatment(d, e, actions[0]))
        && Undisturbed(h, durable, Act(h, durable, d, actions[0]),
                       Partner(h, durable, d, e, actions[0], id), actions[1..], id))
  }

  /** The two agree about `id` after every action. */
  ghost predicate AgreeThroughout(h: Host, durable: bool, d: Desk, e: Desk, actions: seq<Action>, id: string)
    decreases |actions|
  {
    && Agree(d, e, id)
    && (actions == []
        || AgreeThroughout(h, durable, Act(h, durable, d, actions[0]),
                           Partner(h, durable, d, e, actions[0], id), actions[1..], id))
  }

  lemma PartnerAgreesIff(h: Host, durable: bool, d: Desk, e: Desk, a: Action, id: string)
    requires DeskInv(d) && DeskInv(e) && InYuan(d, e) && Agree(d, e, id)
    ensures var d', e' := Act(h, durable, d, a), Partner(h, durable, d, e, a, id);
            && DeskInv(d') && DeskInv(e') && InYuan(d', e')
            && (Agree(d', e', id) <==> (Concerns(d, a, id) ==> SameTreatment(d, e, a)))
  {
    ActKeepsInv(h, durable, d, a);
    ActKeepsInv(h, durable, e, a);
    ActSpends(h, durable, d, a);
    ActSpends(h, durable, e, a);
    if Concerns(d, a, id) {
      OwnerActs(h, durable, d, e, a, id);
    } else {
      OthersAct(h, durable, d, e, a, id);
    }
  }

  /** Leaving out every action about other ids changes nothing about this one, at any
      moment, exactly as long as the shared guard gives each of its own calls the verdict
      it would have given without the others. */
  lemma {:induction false} IsolationIff(h: Host, durable: bool, d: Desk, e: Desk, actions: seq<Action>, id: string)
    requires DeskInv(d) && DeskInv(e) && InYuan(d, e) && Agree(d, e, id)
    ensures AgreeThroughout(h, durable, d, e, actions, id) <==> Undisturbed(h, durable, d, e, actions, id)
    decreases |actions|
  {
    if actions != [] {
      PartnerAgreesIff(h, durable, d, e, actions[0], id);
      var d', e' := Act(h, durable, d, actions[0]), Partner(h, durable, d, e, actions[0], id);
      if Agree(d', e', id) {
        IsolationIff(h, durable, d', e', actions[1..], id);
      } else {
        assert !AgreeThroughout(h, durable, d', e', actions[1..], id);
      }
    }
  }

  lemma {:induction false} PartnerIsOnly(h: Host, durable: bool, d: Desk, e: Desk, actions: seq<Action>, id: string)
    ensures AgreeThroughout(h, durable, d, e, actions, id) ==>
              Agree(History(h, durable, d, actions), History(h, durable, e, Only(h, durable, d, actions, id)), id)
    decreases |actions|
  {
    if actions != [] && AgreeThroughout(h, durable, d, e, actions, id) {
      var a, rest := actions[0], actions[1..];
      var d' := Act(h, durable, d, a);
      PartnerIsOnly(h, durable, d', Partner(h, durable, d, e, a, id), rest, id);
      var only := Only(h, durable, d', rest, id);
      if Concerns(d, a, id) {
        assert ([a] + only)[1..] == only;
      } else {
        assert [] + only == only;
      }
    }
  }

  // ------------------------------------------------------------- within budget

  predicate Within(g: CostGuard.GuardState) {
    g.totalSpent <= g.budgetLimit
  }

  /** The total is within the limit at every moment of the history. */
  predicate NeverOver(h: Host, durable: bool, d: Desk, actions: seq<Action>)
    decreases |actions|
  {
    && Within(d.guard)
    && (actions == [] || NeverOver(h, durable, Act(h, durable, d, actions[0]), actions[1..]))
  }

  /** No run is on its way out over the budget. */
  ghost predicate NoFlags(d: Desk) {
    && (d.current.Some? ==> !d.current.value.run.state.costExhausted)
    && (forall id, k | id in d.resumed && 0 <= k < |d.resumed[id]| ::
          !d.resumed[id][k].state.costExhausted)
  }

  /** The gateway without the other ids has spent no more. */
  predicate Leaner(d: Desk, e: Desk) {
    e.guard.totalSpent <= d.guard.totalSpent && e.guard.budgetLimit == d.guard.budgetLimit
  }

  lemma QuietStepHasNoFlag(h: Host, r: Run, g: CostGuard.GuardState, i: Input)
    requires RunInv(r) && !r.state.costExhausted && g.currency == CostGuard.CNY
    requires !PipelineBounds.Overruns(g, PipelineBounds.Bill(r, i))
    ensures !Step(h, r, g, i).run.state.costExhausted
  {
    PipelineBounds.SpendsExactly(h, r, g, i);
    PipelineBounds.StepEventsHold(h, r, g, i);
  }

  lemma WorkKeepsNoFlags(durable: bool, d: Desk, one: Stepped)
    requires NoFlags(d) && d.current.Some? && !one.run.state.costExhausted
    ensures NoFlags(Noted(durable, d, d.current.value.run, one).(current := Some(d.current.value.(run := one.run))))
  {
  }

  lemma ResumedWorkKeepsNoFlags(durable: bool, d: Desk, id: string, k: nat, one: Stepped)
    requires NoFlags(d) && id in d.resumed && k < |d.resumed[id]| && !one.run.state.costExhausted
    ensures NoFlags(Noted(durable, d, d.resumed[id][k], one)
                    .(resumed := d.resumed[id := d.resumed[id][k := one.run]]))
  {
  }

  lemma ReopenKeepsNoFlags(d: Desk, id: string)
    requires DeskInv(d) && NoFlags(d)
    ensures NoFlags(Reopened(d, id))
  {
    if id in d.parked {
      SuspendedHasNoFlag(d.parked[id]);
    }
  }

  lemma WithinKeepsNoFlags(h: Host, durable: bool, d: Desk, a: Action)
    requires DeskInv(d) && d.guard.currency == CostGuard.CNY && NoFlags(d)
    requires !PipelineBounds.Overruns(d.guard, Spending(d, a))
    ensures NoFlags(Act(h, durable, d, a))
  {
    match a
    case Advance(i) =>
      if d.current.Some? {
        QuietStepHasNoFlag(h, d.current.value.run, d.guard, i);
        WorkKeepsNoFlags(durable, d, Step(h, d.current.value.run, d.guard, i));
      }
    case AdvanceResumed(id, k, i) =>
      if id in d.resumed && k < |d.resumed[id]| {
        assert RunOf(d, id, d.resumed[id][k]);
        QuietStepHasNoFlag(h, d.resumed[id][k], d.guard, i);
        ResumedWorkKeepsNoFlags(durable, d, id, k, Step(h, d.resumed[id][k], d.guard, i));
      }
    case Reopen(id) => ReopenKeepsNoFlags(d, id);
    case _ =>
  }

  lemma SuspendedHasNoFlag(r: Run)
    requires RunInv(r) && r.phase.Suspended?
    ensures !Resume(r).state.costExhausted
  {
  }

  lemma UnflaggedIsNotAborting(r: Run)
    requires RunInv(r) && !r.state.costExhausted
    ensures r.phase != At(CostExhausted)
  {
  }

  lemma WithinIsSameTreatment(h: Host, durable: bool, d: Desk, e: Desk, a: Action, id: string)
    requires DeskInv(d) && InYuan(d, e) && Agree(d, e, id) && NoFlags(d) && Leaner(d, e)
    requires Concerns(d, a, id) && !PipelineBounds.Overruns(d.guard, Spending(d, a))
    ensures SameTreatment(d, e, a)
  {
    match a
    case Advance(i) => UnflaggedIsNotAborting(d.current.value.run);
    case AdvanceResumed(_, k, i) =>
      if id in d.resumed && k < |d.resumed[id]| {
        assert RunOf(d, id, d.resumed[id][k]);
        UnflaggedIsNotAborting(d.resumed[id][k]);
      }
    case _ =>
  }

  lemma StaysLeaner(h: Host, durable: bool, d: Desk, e: Desk, a: Action, id: string)
    requires DeskInv(d) && DeskInv(e) && InYuan(d, e) && Agree(d, e, id) && Leaner(d, e)
    ensures Leaner(Act(h, durable, d, a), Partner(h, durable, d, e, a, id))
  {
    ActSpends(h, durable, d, a);
    ActSpends(h, durable, e, a);
    if Concerns(d, a, id) {
      assert Spending(e, a) == Spending(d, a);
    }
  }

  lemma NeverOverNext(h: Host, durable: bool, d: Desk, actions: seq<Action>)
    requires actions != []
    ensures var d' := Act(h, durable, d, actions[0]);
            NeverOver(h, durable, d, actions) ==> Within(d'.guard) && NeverOver(h, durable, d', actions[1..])
  {
    if NeverOver(h, durable, d, actions) {
      assert NeverOver(h, durable, Act(h, durable, d, actions[0]), actions[1..]);
    }
  }

  lemma WithinDidNotOverrun(h: Host, durable: bool, d: Desk, a: Action)
    requires DeskInv(d) && d.guard.currency == CostGuard.CNY
    ensures Within(Act(h, durable, d, a).guard) ==> !PipelineBounds.Overruns(d.guard, Spending(d, a))
  {
    ActSpends(h, durable, d, a);
  }

  /** The guard does not couple the jobs while the full history stays within the limit. */
  lemma {:induction false} WithinBudgetIsUndisturbed(h: Host, durable: bool, d: Desk, e: Desk,
                                                     actions: seq<Action>, id: string)
    requires DeskInv(d) && DeskInv(e) && InYuan(d, e) && Agree(d, e, id) && NoFlags(d) && Leaner(d, e)
    ensures NeverOver(h, durable, d, actions) ==> Undisturbed(h, durable, d, e, actions, id)
    decreases |actions|
  {
    if actions != [] && NeverOver(h, durable, d, actions) {
      var a := actions[0];
      var d', e' := Act(h, durable, d, a), Partner(h, durable, d, e, a, id);
      NeverOverNext(h, durable, d, actions);
      WithinDidNotOverrun(h, durable, d, a);
      if Concerns(d, a, id) {
        WithinIsSameTreatment(h, durable, d, e, a, id);
      }
      PartnerAgreesIff(h, durable, d, e, a, id);
      WithinKeepsNoFlags(h, durable, d, a);
      StaysLeaner(h, durable, d, e, a, id);
      WithinBudgetIsUndisturbed(h, durable, d', e', actions[1..], id);
    }
  }

  /** While the total never passes the limit, what is on file and at work for an id is
      what it would be had there never been another one. */
  lemma IsolationWithinBudget(h: Host, durable: bool, g: CostGuard.GuardState, actions: seq<Action>, id: string)
    requires g.currency == CostGuard.CNY
    ensures NeverOver(h, durable, Empty(g), actions) ==>
              Agree(History(h, durable, Empty(g), actions),
                    History(h, durable, Empty(g), Only(h, durable, Empty(g), actions, id)), id)
  {
    var d := Empty(g);
    EmptyIsInv(g);
    WithinBudgetIsUndisturbed(h, durable, d, d, actions, id);
    IsolationIff(h, durable, d, d, actions, id);
    PartnerIsOnly(h, durable, d, d, actions, id);
  }

  /** Two histories within budget with the same actions about an id show the same status
      for it. */
  lemma StatusIsPerJob(h: Host, durable: bool, g: CostGuard.GuardState, x: seq<Action>, y: seq<Action>, id: string)
    requires g.currency == CostGuard.CNY
    ensures NeverOver(h, durable, Empty(g), x) && NeverOver(h, durable, Empty(g), y)
            && Only(h, durable, Empty(g), x, id) == Only(h, durable, Empty(g), y, id) ==>
              StatusOf(History(h, durable, Empty(g), x), id) == StatusOf(History(h, durable, Empty(g), y), id)
  {
    IsolationWithinBudget(h, durable, g, x, id);
    IsolationWithinBudget(h, durable, g, y, id);
  }
}
