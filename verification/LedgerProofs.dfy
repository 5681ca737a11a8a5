/** The books balance, the benchmark stops at the first scenario over budget, and a passed
    scenario is a fix that really ran. */
module LedgerProofs {
  import opened Prelude
  import opened Pipeline
  import opened PipelineProofs
  import opened Ledger
  import CostGuard
  import Normalizer
  import PipelineBounds
  import PipelineResume
  import Reviewer
  import Verifier
  import WorldBudget

  // -------------------------------------------------- the guard during a scenario

  /** A run carries the budget flag exactly when the guard is over budget, and then it is
      on its way out. */
  ghost predicate OnTab(r: Run, g: CostGuard.GuardState) {
    && RunInv(r) && PipelineBounds.RetryNode(r) && g.currency == CostGuard.CNY
    && (r.state.costExhausted <==> g.totalSpent > g.budgetLimit)
    && (r.state.costExhausted ==> r.phase == At(CostExhausted) || r.phase.Finished?)
    && (CostGuardTriggered in r.state.agentTrace ==> r.state.costExhausted)
  }

  /** The guard's total never falls, and once it is over budget it stays where it is. */
  ghost predicate Grew(g: CostGuard.GuardState, g': CostGuard.GuardState) {
    && g'.currency == g.currency && g'.budgetLimit == g.budgetLimit
    && g.totalSpent <= g'.totalSpent
    && (g.totalSpent > g.budgetLimit ==> g' == g)
  }

  /** It passes the limit by at most `c`. */
  ghost predicate Overshot(g: CostGuard.GuardState, g': CostGuard.GuardState, c: nat) {
    g.totalSpent <= g.budgetLimit ==> g'.totalSpent <= g'.budgetLimit + c
  }

  ghost predicate AllCheap(feed: nat -> Input, c: nat) {
    forall k: nat :: WorldBudget.Cheap(feed(k), c)
  }

  function Dearest(i: Input): (c: nat)
    ensures WorldBudget.Cheap(i, c)
  {
    var first := if i.first.Answered? && i.first.cost > 0 then i.first.cost else 0;
    var second := if i.second.Answered? && i.second.cost > 0 then i.second.cost else 0;
    if first > second then first else second
  }

  lemma MarkFollowsFlag(r: Run)
    requires RunInv(r) && !r.phase.Crashed?
    ensures CostGuardTriggered in r.state.agentTrace ==> r.state.costExhausted
  {
  }

  lemma AbortStep(h: Host, r: Run, g: CostGuard.GuardState, i: Input)
    requires r.phase == At(CostExhausted)
    ensures var o := Step(h, r, g, i);
            o.run.phase.Finished? && o.guard == g && o.run.state.costExhausted == r.state.costExhausted
  {
  }

  /** A run that has not crashed is on tab; one that has left the guard within budget. */
  ghost predicate OnTabOrCrashed(r: Run, g: CostGuard.GuardState) {
    if r.phase.Crashed? then g.totalSpent <= g.budgetLimit else OnTab(r, g)
  }

  lemma StepKeepsTab(h: Host, r: Run, g: CostGuard.GuardState, i: Input, c: nat)
    requires OnTab(r, g) && r.phase.Active() && WorldBudget.Cheap(i, c)
    ensures var o := Step(h, r, g, i);
            Grew(g, o.guard) && Overshot(g, o.guard, c) && OnTabOrCrashed(o.run, o.guard)
  {
    var o := Step(h, r, g, i);
    StepKeepsInv(h, r, g, i);
    PipelineBounds.StepKeepsRetryNode(h, r, g, i);
    PipelineBounds.StepEventsHold(h, r, g, i);
    if r.phase == At(CostExhausted) {
      AbortStep(h, r, g, i);
      MarkFollowsFlag(o.run);
    } else {
      WorldBudget.StepSpends(h, r, g, i, c);
      if !o.run.phase.Crashed? {
        MarkFollowsFlag(o.run);
      }
    }
  }

  lemma {:induction false} DriveKeepsTab(h: Host, r: Run, g: CostGuard.GuardState, feed: nat -> Input, k: nat)
    requires OnTabOrCrashed(r, g) && PipelineBounds.RetryNode(r)
    ensures var d := Drive(h, r, g, feed, k);
            Grew(g, d.guard) && OnTabOrCrashed(d.run, d.guard) && !d.run.phase.Active()
            && PipelineBounds.RetryNode(d.run)
    decreases PipelineBounds.Rank(r.phase)
  {
    if r.phase.Active() {
      StepKeepsTab(h, r, g, feed(k), Dearest(feed(k)));
      PipelineBounds.StepLowersRank(h, r, g, feed(k));
      PipelineBounds.StepKeepsRetryNode(h, r, g, feed(k));
      var one := Step(h, r, g, feed(k));
      DriveKeepsTab(h, one.run, one.guard, feed, k + 1);
    }
  }

  lemma {:induction false} DriveOvershoots(h: Host, r: Run, g: CostGuard.GuardState, feed: nat -> Input, k: nat,
                                           c: nat)
    requires OnTabOrCrashed(r, g) && PipelineBounds.RetryNode(r) && AllCheap(feed, c)
    ensures Overshot(g, Drive(h, r, g, feed, k).guard, c)
    decreases PipelineBounds.Rank(r.phase)
  {
    if r.phase.Active() {
      assert WorldBudget.Cheap(feed(k), c);
      StepKeepsTab(h, r, g, feed(k), c);
      PipelineBounds.StepLowersRank(h, r, g, feed(k));
      PipelineBounds.StepKeepsRetryNode(h, r, g, feed(k));
      var one := Step(h, r, g, feed(k));
      DriveKeepsTab(h, one.run, one.guard, feed, k + 1);
      DriveOvershoots(h, one.run, one.guard, feed, k + 1, c);
    }
  }

  lemma ResumeKeepsTab(r: Run, g: CostGuard.GuardState)
    requires OnTab(r, g) && r.phase.Suspended?
    ensures OnTab(Resume(r), g) && PipelineBounds.RetryNode(Resume(r))
  {
    ResumeKeepsInv(r);
  }

  /** One scenario: the state it returns shows a tripped budget exactly when the guard is
      over the limit afterwards. */
  lemma PlayKeepsTab(h: Host, start: Run, g: CostGuard.GuardState, feed: nat -> Input)
    requires OnTab(start, g) && PipelineBounds.RetryNode(start)
    ensures var played := Play(h, start, g, feed);
            && Grew(g, played.guard)
            && (RanOut(played.result) <==> played.guard.totalSpent > played.guard.budgetLimit)
  {
    var first := Drive(h, start, g, feed, 0);
    DriveKeepsTab(h, start, g, feed, 0);
    if first.run.phase.Suspended? {
      ResumeKeepsTab(first.run, first.guard);
      DriveKeepsTab(h, Resume(first.run), first.guard, feed, first.used);
    }
  }

  lemma PlayOvershoots(h: Host, start: Run, g: CostGuard.GuardState, feed: nat -> Input, c: nat)
    requires OnTab(start, g) && PipelineBounds.RetryNode(start) && AllCheap(feed, c)
    ensures Overshot(g, Play(h, start, g, feed).guard, c)
  {
    var first := Drive(h, start, g, feed, 0);
    DriveKeepsTab(h, start, g, feed, 0);
    DriveOvershoots(h, start, g, feed, 0, c);
    if first.run.phase.Suspended? {
      ResumeKeepsTab(first.run, first.guard);
      DriveOvershoots(h, Resume(first.run), first.guard, feed, first.used, c);
    }
  }

  lemma OpeningIsOnTab(s: Scenario, traceId: string, g: CostGuard.GuardState)
    requires g.currency == CostGuard.CNY && g.totalSpent <= g.budgetLimit
    ensures OnTab(Ledger.Opening(s, traceId), g) && PipelineBounds.RetryNode(Ledger.Opening(s, traceId))
  {
  }

  // ------------------------------------------------------------------ the books

  /** One row a scenario, in order, none with a negative cost. */
  ghost predicate InOrder(rows: seq<Row>, scenarios: seq<Scenario>) {
    && |rows| <= |scenarios|
    && forall i | 0 <= i < |rows| :: rows[i].scenarioId == scenarios[i].scenarioId && rows[i].cost >= 0
  }

  /** The rows are those of the first scenarios in order, and their costs are what the
      guard's total grew by; the books stop when, and only when, that total passes the
      limit. */
  ghost predicate Balanced(sheet: Sheet, scenarios: seq<Scenario>, g: CostGuard.GuardState) {
    && Grew(g, sheet.guard)
    && InOrder(sheet.rows, scenarios)
    && g.totalSpent + TotalCost(sheet.rows) <= g.budgetLimit
    && (sheet.stop.None? ==>
          |sheet.rows| == |scenarios| && sheet.guard.totalSpent == g.totalSpent + TotalCost(sheet.rows))
    && (sheet.stop.Some? ==>
          && |sheet.rows| < |scenarios| && sheet.guard.totalSpent > sheet.guard.budgetLimit
          && sheet.stop == Some(BudgetError(sheet.guard.totalSpent, sheet.guard.budgetLimit)))
  }

  lemma EntryBalances(sheet: Sheet, scenarios: seq<Scenario>, g: CostGuard.GuardState, traceId: string,
                      played: Played)
    requires scenarios != [] && Balanced(sheet, scenarios[..|scenarios| - 1], g) && sheet.stop.None?
    requires Grew(sheet.guard, played.guard)
    requires RanOut(played.result) <==> played.guard.totalSpent > played.guard.budgetLimit
    ensures Balanced(Entered(sheet, scenarios[|scenarios| - 1], traceId, played), scenarios, g)
  {
    var s := scenarios[|scenarios| - 1];
    InOrderSoFar(sheet.rows, scenarios);
    if EndOf(s, traceId, sheet.guard.totalSpent, played).Recorded? {
      var row := RowOf(s, traceId, sheet.guard.totalSpent, played);
      OneMoreRow(sheet.rows, row);
      OneMoreInOrder(sheet.rows, row, scenarios);
    }
  }

  lemma InOrderSoFar(rows: seq<Row>, scenarios: seq<Scenario>)
    requires scenarios != [] && InOrder(rows, scenarios[..|scenarios| - 1])
    ensures InOrder(rows, scenarios)
  {
  }

  lemma OneMoreInOrder(rows: seq<Row>, row: Row, scenarios: seq<Scenario>)
    requires InOrder(rows, scenarios) && |rows| < |scenarios|
    requires row.scenarioId == scenarios[|rows|].scenarioId && row.cost >= 0
    ensures InOrder(rows + [row], scenarios)
  {
  }

  lemma OneMoreRow(rows: seq<Row>, row: Row)
    ensures TotalCost(rows + [row]) == TotalCost(rows) + row.cost
  {
    assert (rows + [row])[..|rows|] == rows;
  }

  lemma {:induction false} BooksBalance(h: Host, scenarios: seq<Scenario>, g: CostGuard.GuardState,
                                        world: Surroundings)
    requires g.currency == CostGuard.CNY && g.totalSpent <= g.budgetLimit
    ensures Balanced(SheetOf(h, scenarios, g, world), scenarios, g)
  {
    if scenarios != [] {
      var n := |scenarios| - 1;
      var before := SheetOf(h, scenarios[..n], g, world);
      BooksBalance(h, scenarios[..n], g, world);
      if before.stop.None? {
        var start := Ledger.Opening(scenarios[n], world(n).0);
        OpeningIsOnTab(scenarios[n], world(n).0, before.guard);
        PlayKeepsTab(h, start, before.guard, world(n).1);
        EntryBalances(before, scenarios, g, world(n).0, PlayScenario(h, scenarios[n], before.guard, world, n));
      }
    }
  }

  /** The aborting scenario is the first one that takes the guard over the limit: the books
      before it balance, it alone accounts for the rest of the spending, and with calls of
      at most `c` each the total is at most one call over the limit. */
  lemma {:induction false} AbortIsFirstOverrun(h: Host, scenarios: seq<Scenario>, g: CostGuard.GuardState,
                                               world: Surroundings, c: nat)
    requires g.currency == CostGuard.CNY && g.totalSpent <= g.budgetLimit
    requires forall n: nat :: AllCheap(world(n).1, c)
    ensures var sheet := SheetOf(h, scenarios, g, world);
            sheet.stop.Some? ==>
              var k := |sheet.rows|;
              && k < |scenarios|
              && (var before := SheetOf(h, scenarios[..k], g, world);
                  && before.stop.None? && before.rows == sheet.rows
                  && before.guard.totalSpent == g.totalSpent + TotalCost(sheet.rows)
                  && sheet.guard == PlayScenario(h, scenarios[k], before.guard, world, k).guard
                  && before.guard.totalSpent <= g.budgetLimit < sheet.guard.totalSpent <= g.budgetLimit + c)
  {
    if scenarios != [] {
      var n := |scenarios| - 1;
      var init := scenarios[..n];
      var before := SheetOf(h, init, g, world);
      BooksBalance(h, init, g, world);
      BooksBalance(h, scenarios, g, world);
      if before.stop.Some? {
        AbortIsFirstOverrun(h, init, g, world, c);
        assert init[..|before.rows|] == scenarios[..|before.rows|];
      } else {
        OpeningIsOnTab(scenarios[n], world(n).0, before.guard);
        PlayOvershoots(h, Ledger.Opening(scenarios[n], world(n).0), before.guard, world(n).1, c);
      }
    }
  }

  // --------------------------------------------------------- what "passed" means

  /** The observation `e` is the verifier at work on the state's artifact, and the state
      holds its outcome with the very input it was given. */
  ghost predicate Executed(h: Host, s: AgentState, feed: nat -> Input, e: Stamped) {
    var outcome := Verifier.Outcome(h.compile, s.fixArtifact, feed(e.at).sandbox);
    && outcome.Report? && outcome.result == s.executionResult && outcome.error == s.executionError
    && e.event == Verified(s.fixArtifact, outcome.ran)
  }

  ghost predicate ResultIsGenuine(h: Host, s: AgentState, feed: nat -> Input, log: seq<Stamped>) {
    s.executionResult.Some? ==> exists j :: 0 <= j < |log| && Executed(h, s, feed, log[j])
  }

  lemma GenuineGrows(h: Host, s: AgentState, s': AgentState, feed: nat -> Input, log: seq<Stamped>,
                     more: seq<Stamped>)
    requires ResultIsGenuine(h, s, feed, log)
    requires s'.executionResult == s.executionResult && s'.executionError == s.executionError
    requires s.executionResult.Some? ==> s'.fixArtifact == s.fixArtifact
    ensures ResultIsGenuine(h, s', feed, log + more)
  {
    if s.executionResult.Some? {
      var j :| 0 <= j < |log| && Executed(h, s, feed, log[j]);
      assert Executed(h, s', feed, (log + more)[j]);
    }
  }

  lemma VerifierStepIsGenuine(h: Host, r: Run, g: CostGuard.GuardState, feed: nat -> Input, k: nat,
                              log: seq<Stamped>)
    requires RunInv(r) && r.phase == At(Verification)
    ensures var o := Step(h, r, g, feed(k));
            ResultIsGenuine(h, o.run.state, feed, log + Stamp(k, o.events))
  {
    var o := Step(h, r, g, feed(k));
    if Verifier.Outcome(h.compile, r.state.fixArtifact, feed(k).sandbox).Report? {
      assert (log + Stamp(k, o.events))[|log|] == Stamped(k, o.events[0]);
      assert Executed(h, o.run.state, feed, Stamped(k, o.events[0]));
    }
  }

  /** A node's run that leaves the result alone; only a specialist replaces the artifact. */
  predicate LeavesResult(node: Node, n: NodeRun) {
    n.end.Commit? ==>
      && n.end.update.executionResult == Keep && n.end.update.executionError == Keep
      && (node != CodeFixer && node != InfraSre ==> n.end.update.fixArtifact == Keep)
  }

  lemma CallingNodeLeavesResult(h: Host, r: Run, g: CostGuard.GuardState, i: Input)
    requires r.phase.Active() && PipelineBounds.CallsModel(r.phase.node) && PipelineBounds.RetryNode(r)
    ensures LeavesResult(r.phase.node, PipelineBounds.StepRun(h, r, g, i))
  {
  }

  lemma QuietNodeLeavesResult(h: Host, r: Run, g: CostGuard.GuardState, i: Input)
    requires r.phase.At? && !PipelineBounds.CallsModel(r.phase.node) && r.phase.node != Verification
    ensures LeavesResult(r.phase.node, PipelineBounds.StepRun(h, r, g, i))
  {
  }

  lemma SpecialistHasNoResult(r: Run)
    requires RunInv(r) && r.phase.Active() && (r.phase.node == CodeFixer || r.phase.node == InfraSre)
    ensures r.state.executionResult.None?
  {
  }

  lemma SettleKeepsResult(r: Run, n: NodeRun)
    requires r.phase.Active() && LeavesResult(r.phase.node, n)
    ensures var s := Settle(r, r.phase.node, n).run.state;
            && s.executionResult == r.state.executionResult && s.executionError == r.state.executionError
            && (r.phase.node != CodeFixer && r.phase.node != InfraSre ==> s.fixArtifact == r.state.fixArtifact)
  {
  }

  lemma OtherStepsKeepResult(h: Host, r: Run, g: CostGuard.GuardState, i: Input)
    requires RunInv(r) && r.phase.Active() && r.phase != At(Verification)
    ensures var s := Step(h, r, g, i).run.state;
            && s.executionResult == r.state.executionResult && s.executionError == r.state.executionError
            && (r.state.executionResult.Some? ==> s.fixArtifact == r.state.fixArtifact)
  {
    PipelineBounds.StepSettles(h, r, g, i);
    if PipelineBounds.CallsModel(r.phase.node) {
      CallingNodeLeavesResult(h, r, g, i);
    } else {
      QuietNodeLeavesResult(h, r, g, i);
    }
    SettleKeepsResult(r, PipelineBounds.StepRun(h, r, g, i));
    if r.phase.node == CodeFixer || r.phase.node == InfraSre {
      SpecialistHasNoResult(r);
    }
  }

  lemma StepIsGenuine(h: Host, r: Run, g: CostGuard.GuardState, feed: nat -> Input, k: nat, log: seq<Stamped>)
    requires RunInv(r) && PipelineBounds.RetryNode(r) && r.phase.Active()
    requires ResultIsGenuine(h, r.state, feed, log)
    ensures var o := Step(h, r, g, feed(k));
            ResultIsGenuine(h, o.run.state, feed, log + Stamp(k, o.events))
  {
    if r.phase == At(Verification) {
      VerifierStepIsGenuine(h, r, g, feed, k, log);
    } else {
      var o := Step(h, r, g, feed(k));
      OtherStepsKeepResult(h, r, g, feed(k));
      GenuineGrows(h, r.state, o.run.state, feed, log, Stamp(k, o.events));
    }
  }

  lemma OneStepOfDrive(h: Host, r: Run, g: CostGuard.GuardState, feed: nat -> Input, k: nat)
    requires PipelineBounds.RetryNode(r) && r.phase.Active()
    ensures var one := Step(h, r, g, feed(k));
            && PipelineBounds.RetryNode(one.run)
            && PipelineBounds.Rank(one.run.phase) < PipelineBounds.Rank(r.phase)
            && Drive(h, r, g, feed, k) == Drive(h, one.run, one.guard, feed, k + 1)
            && DriveEvents(h, r, g, feed, k)
               == Stamp(k, one.events) + DriveEvents(h, one.run, one.guard, feed, k + 1)
  {
    PipelineBounds.StepLowersRank(h, r, g, feed(k));
    PipelineBounds.StepKeepsRetryNode(h, r, g, feed(k));
  }

  /** The log is complete as far as the run has come. */
  ghost predicate Genuine(h: Host, r: Run, feed: nat -> Input, log: seq<Stamped>) {
    RunInv(r) && ResultIsGenuine(h, r.state, feed, log)
  }

  lemma StepStaysGenuine(h: Host, r: Run, g: CostGuard.GuardState, feed: nat -> Input, k: nat, log: seq<Stamped>)
    requires Genuine(h, r, feed, log) && PipelineBounds.RetryNode(r) && r.phase.Active()
    ensures var o := Step(h, r, g, feed(k));
            Genuine(h, o.run, feed, log + Stamp(k, o.events))
  {
    StepIsGenuine(h, r, g, feed, k, log);
    StepKeepsInv(h, r, g, feed(k));
  }

  lemma {:induction false} DriveIsGenuine(h: Host, r: Run, g: CostGuard.GuardState, feed: nat -> Input, k: nat,
                                          log: seq<Stamped>)
    requires Genuine(h, r, feed, log) && PipelineBounds.RetryNode(r)
    ensures Genuine(h, Drive(h, r, g, feed, k).run, feed, log + DriveEvents(h, r, g, feed, k))
    decreases PipelineBounds.Rank(r.phase)
  {
    if r.phase.Active() {
      OneStepOfDrive(h, r, g, feed, k);
      StepStaysGenuine(h, r, g, feed, k, log);
      var one := Step(h, r, g, feed(k));
      var first, later := Stamp(k, one.events), DriveEvents(h, one.run, one.guard, feed, k + 1);
      DriveIsGenuine(h, one.run, one.guard, feed, k + 1, log + first);
      Regroup(log, first, later);
    } else {
      Regroup(log, [], []);
    }
  }

  lemma Regroup<T>(x: seq<T>, y: seq<T>, z: seq<T>)
    ensures (x + y) + z == x + (y + z) && x + [] == x
  {
  }

  /** The fix of a state verifiably worked: a report exists, the gate was passed, and
      among what was observed a container ran the accepted form of the artifact, on an
      input with exit status 0. */
  ghost predicate Earned(h: Host, s: AgentState, feed: nat -> Input, log: seq<Stamped>) {
    && s.reportText.Some? && s.reportPath.Some? && s.executionError.None?
    && s.securityVerdict.Some? && s.approvalRequired == (s.securityVerdict == Some(Reviewer.HighRisk))
    && IsPrefixOfAgents(s.agentTrace, 5)
    && s.fixArtifact.Some?
    && exists j :: 0 <= j < |log| && RanToSuccess(h, s.fixArtifact.value, feed, log[j])
  }

  ghost predicate RanToSuccess(h: Host, artifact: string, feed: nat -> Input, e: Stamped) {
    var n := Normalizer.Normalize(h.compile, artifact);
    var env := feed(e.at).sandbox;
    && n.Normalized? && n.outcome != Normalizer.Rejected && h.compile(n.code) == Normalizer.Compiles
    && e.event == Verified(Some(artifact), Some(n.code))
    && env.setup.None? && env.wait == Verifier.Returns(0)
  }

  lemma SuccessRan(h: Host, s: AgentState, feed: nat -> Input, e: Stamped)
    requires Executed(h, s, feed, e) && Resolved(Some(s))
    ensures s.fixArtifact.Some? && RanToSuccess(h, s.fixArtifact.value, feed, e)
  {
    Verifier.SuccessIff(h.compile, s.fixArtifact, feed(e.at).sandbox);
    Verifier.OneOfResultAndError(h.compile, s.fixArtifact, feed(e.at).sandbox);
  }

  /** Only a finished run has both a report and a result. */
  lemma ReportedRunPassedGate(r: Run)
    requires RunInv(r) && !r.phase.Active() && !r.phase.Crashed? && r.state.reportText.Some?
    requires r.state.executionResult.Some?
    ensures r.state.reportPath.Some? && r.state.securityVerdict.Some?
    ensures r.state.approvalRequired == (r.state.securityVerdict == Some(Reviewer.HighRisk))
    ensures IsPrefixOfAgents(r.state.agentTrace, 5)
  {
    SpecialistIsOne(r.state.specialist, 5);
  }

  lemma ResolvedIsEarned(h: Host, r: Run, feed: nat -> Input, log: seq<Stamped>)
    requires RunInv(r) && !r.phase.Active() && !r.phase.Crashed?
    requires ResultIsGenuine(h, r.state, feed, log) && Resolved(Some(r.state))
    ensures Earned(h, r.state, feed, log)
  {
    var j :| 0 <= j < |log| && Executed(h, r.state, feed, log[j]);
    SuccessRan(h, r.state, feed, log[j]);
    ReportedRunPassedGate(r);
  }

  lemma SuspendedHasNoReport(r: Run)
    requires RunInv(r) && r.phase.Suspended?
    ensures !Resolved(Some(r.state))
  {
  }

  /** A scenario counts as passed only if its fix verifiably worked in that very run. */
  lemma PassedIsEarned(h: Host, s: Scenario, traceId: string, g: CostGuard.GuardState, feed: nat -> Input)
    ensures var start := Ledger.Opening(s, traceId);
            var played := Play(h, start, g, feed);
            RowOf(s, traceId, g.totalSpent, played).passed ==>
              && played.result.Some? && played.error.None?
              && Earned(h, played.result.value, feed, PlayEvents(h, start, g, feed))
  {
    var start := Ledger.Opening(s, traceId);
    var first, log := Drive(h, start, g, feed, 0), DriveEvents(h, start, g, feed, 0);
    DriveIsGenuine(h, start, g, feed, 0, []);
    DriveEnds(h, start, g, feed, 0);
    assert [] + log == log && log + [] == log;
    if first.run.phase.Suspended? {
      SuspendedHasNoReport(first.run);
      ResumedIsEarned(h, first, feed, log);
    } else if !first.run.phase.Crashed? && Resolved(Some(first.run.state)) {
      ResolvedIsEarned(h, first.run, feed, log);
    }
  }

  lemma ResumedIsEarned(h: Host, first: Driven, feed: nat -> Input, log: seq<Stamped>)
    requires RunInv(first.run) && first.run.phase.Suspended? && ResultIsGenuine(h, first.run.state, feed, log)
    ensures PipelineBounds.RetryNode(Resume(first.run))
    ensures var second := Drive(h, Resume(first.run), first.guard, feed, first.used);
            !second.run.phase.Crashed? && Resolved(Some(second.run.state)) ==>
              Earned(h, second.run.state, feed,
                     log + DriveEvents(h, Resume(first.run), first.guard, feed, first.used))
  {
    ResumeKeepsInv(first.run);
    DriveIsGenuine(h, Resume(first.run), first.guard, feed, first.used, log);
    DriveEnds(h, Resume(first.run), first.guard, feed, first.used);
    var second := Drive(h, Resume(first.run), first.guard, feed, first.used);
    if !second.run.phase.Crashed? && Resolved(Some(second.run.state)) {
      ResolvedIsEarned(h, second.run, feed,
                       log + DriveEvents(h, Resume(first.run), first.guard, feed, first.used));
    }
  }

  lemma {:induction false} DriveEnds(h: Host, r: Run, g: CostGuard.GuardState, feed: nat -> Input, k: nat)
    requires PipelineBounds.RetryNode(r)
    ensures !Drive(h, r, g, feed, k).run.phase.Active()
    decreases PipelineBounds.Rank(r.phase)
  {
    if r.phase.Active() {
      PipelineBounds.StepLowersRank(h, r, g, feed(k));
      PipelineBounds.StepKeepsRetryNode(h, r, g, feed(k));
      var one := Step(h, r, g, feed(k));
      DriveEnds(h, one.run, one.guard, feed, k + 1);
    }
  }

  function RowFor(h: Host, s: Scenario, g: CostGuard.GuardState, world: Surroundings, n: nat): Row {
    RowOf(s, world(n).0, g.totalSpent, PlayScenario(h, s, g, world, n))
  }

  /** `after` is `before` with at most one more row. */
  ghost predicate Appends(before: seq<Row>, after: seq<Row>, row: Row, n: nat) {
    after == before || (|before| == n && after == before + [row])
  }

  lemma LastRow(h: Host, scenarios: seq<Scenario>, g: CostGuard.GuardState, world: Surroundings)
    requires g.currency == CostGuard.CNY && g.totalSpent <= g.budgetLimit && scenarios != []
    ensures var n := |scenarios| - 1;
            var before, after := SheetOf(h, scenarios[..n], g, world), SheetOf(h, scenarios, g, world);
            Appends(before.rows, after.rows, RowFor(h, scenarios[n], before.guard, world, n), n)
  {
    BooksBalance(h, scenarios[..|scenarios| - 1], g, world);
  }

  /** Row `i` is that of scenario `i`, played on the guard its predecessors left. */
  ghost predicate OwnRow(h: Host, scenarios: seq<Scenario>, g: CostGuard.GuardState, world: Surroundings,
                         i: nat, row: Row)
    requires i < |scenarios|
  {
    row == RowFor(h, scenarios[i], SheetOf(h, scenarios[..i], g, world).guard, world, i)
  }

  lemma OwnRowOfLonger(h: Host, scenarios: seq<Scenario>, g: CostGuard.GuardState, world: Surroundings,
                       i: nat, row: Row)
    requires i < |scenarios| - 1 && OwnRow(h, scenarios[..|scenarios| - 1], g, world, i, row)
    ensures OwnRow(h, scenarios, g, world, i, row)
  {
    var init := scenarios[..|scenarios| - 1];
    assert init[..i] == scenarios[..i] && init[i] == scenarios[i];
  }

  lemma RowByRow(before: seq<Row>, after: seq<Row>, row: Row, n: nat, i: nat)
    requires Appends(before, after, row, n) && i < |after|
    ensures (i < |before| && after[i] == before[i]) || (i == n && after[i] == row)
  {
    if i < |before| {
      assert after[i] == before[i];
    } else {
      assert i == n && after[i] == row;
    }
  }

  lemma {:induction false} RowsAreOwn(h: Host, scenarios: seq<Scenario>, g: CostGuard.GuardState,
                                      world: Surroundings, i: nat)
    requires g.currency == CostGuard.CNY && g.totalSpent <= g.budgetLimit
    requires i < |SheetOf(h, scenarios, g, world).rows|
    ensures i < |scenarios| && OwnRow(h, scenarios, g, world, i, SheetOf(h, scenarios, g, world).rows[i])
    decreases |scenarios|
  {
    if scenarios != [] {
      var init, n := scenarios[..|scenarios| - 1], |scenarios| - 1;
      var before, rows := SheetOf(h, init, g, world), SheetOf(h, scenarios, g, world).rows;
      LastRow(h, scenarios, g, world);
      RowByRow(before.rows, rows, RowFor(h, scenarios[n], before.guard, world, n), n, i);
      if i < |before.rows| && rows[i] == before.rows[i] {
        RowsAreOwn(h, init, g, world, i);
        OwnRowOfLonger(h, scenarios, g, world, i, rows[i]);
      }
    }
  }

  /** Every row of the books is that of its own scenario's run, and if it says "passed",
      the fix of that run verifiably worked in it. */
  lemma EveryRowIsEarned(h: Host, scenarios: seq<Scenario>, g: CostGuard.GuardState, world: Surroundings, i: nat)
    requires g.currency == CostGuard.CNY && g.totalSpent <= g.budgetLimit
    requires i < |SheetOf(h, scenarios, g, world).rows|
    ensures i < |scenarios|
    ensures var row := SheetOf(h, scenarios, g, world).rows[i];
            var before := SheetOf(h, scenarios[..i], g, world).guard;
            var played := PlayScenario(h, scenarios[i], before, world, i);
            && row == RowOf(scenarios[i], world(i).0, before.totalSpent, played)
            && (row.passed ==>
                  && played.result.Some? && played.error.None?
                  && Earned(h, played.result.value, world(i).1,
                            PlayEvents(h, Ledger.Opening(scenarios[i], world(i).0), before, world(i).1)))
  {
    RowsAreOwn(h, scenarios, g, world, i);
    PassedIsEarned(h, scenarios[i], world(i).0, SheetOf(h, scenarios[..i], g, world).guard, world(i).1);
  }

  // ------------------------------------------------------------- resumption is free

  lemma StampedAll(k: nat, events: seq<Event>)
    requires forall e | e in events :: e.Verified? || e.Reported?
    ensures forall s | s in Stamp(k, events) :: s.event.Verified? || s.event.Reported?
  {
  }

  lemma {:induction false} LateDriveIsFree(h: Host, r: Run, g: CostGuard.GuardState, feed: nat -> Input, k: nat)
    requires PipelineResume.Late(r.phase) && r.approved && PipelineBounds.RetryNode(r)
    ensures Drive(h, r, g, feed, k).guard == g && PipelineResume.Late(Drive(h, r, g, feed, k).run.phase)
    ensures forall s | s in DriveEvents(h, r, g, feed, k) :: s.event.Verified? || s.event.Reported?
    decreases PipelineBounds.Rank(r.phase)
  {
    if r.phase.Active() {
      var one := Step(h, r, g, feed(k));
      PipelineResume.LateStep(h, r, g, feed(k));
      PipelineBounds.StepLowersRank(h, r, g, feed(k));
      PipelineBounds.StepKeepsRetryNode(h, r, g, feed(k));
      LateDriveIsFree(h, one.run, one.guard, feed, k + 1);
      StampedAll(k, one.events);
    }
  }

  /** A resumed run, taken to its end on any guard, leaves the guard as it was: nothing is
      spent, and nothing but a verification and a report can be observed. */
  lemma ResumptionIsFree(h: Host, r: Run, g: CostGuard.GuardState, feed: nat -> Input, k: nat)
    requires r.phase.Suspended?
    ensures PipelineBounds.RetryNode(Resume(r)) && Drive(h, Resume(r), g, feed, k).guard == g
    ensures forall s | s in DriveEvents(h, Resume(r), g, feed, k) :: s.event.Verified? || s.event.Reported?
  {
    LateDriveIsFree(h, Resume(r), g, feed, k);
  }

  // ------------------------------------------------------------ false negatives

  ghost predicate DistinctIds(scenarios: seq<Scenario>) {
    forall i, j | 0 <= i < j < |scenarios| :: scenarios[i].scenarioId != scenarios[j].scenarioId
  }

  function VerdictOf(played: Played): Option<Reviewer.Verdict> {
    if played.result.Some? then played.result.value.securityVerdict else None
  }

  ghost predicate OwnVerdict(h: Host, scenarios: seq<Scenario>, g: CostGuard.GuardState,
                             world: Surroundings, i: nat, verdicts: Verdicts)
    requires i < |scenarios|
  {
    var before := SheetOf(h, scenarios[..i], g, world).guard;
    var id := scenarios[i].scenarioId;
    id in verdicts && verdicts[id] == VerdictFor(h, scenarios[i], before, world, i)
  }

  function VerdictFor(h: Host, s: Scenario, g: CostGuard.GuardState, world: Surroundings, n: nat)
    : Option<Reviewer.Verdict>
  {
    VerdictOf(PlayScenario(h, s, g, world, n))
  }

  /** The entry of the last scenario, on top of the entries before it. */
  ghost predicate EntersVerdict(h: Host, scenarios: seq<Scenario>, g: CostGuard.GuardState,
                                world: Surroundings, earlier: Verdicts, verdicts: Verdicts)
    requires scenarios != []
  {
    var n := |scenarios| - 1;
    var guard := SheetOf(h, scenarios[..n], g, world).guard;
    verdicts == earlier[scenarios[n].scenarioId := VerdictFor(h, scenarios[n], guard, world, n)]
  }

  lemma LastVerdict(h: Host, scenarios: seq<Scenario>, g: CostGuard.GuardState, world: Surroundings)
    requires scenarios != [] && SheetOf(h, scenarios, g, world).stop.None?
    ensures var before := SheetOf(h, scenarios[..|scenarios| - 1], g, world);
            && before.stop.None?
            && EntersVerdict(h, scenarios, g, world, before.verdicts, SheetOf(h, scenarios, g, world).verdicts)
  {
  }

  lemma EnteredIsOwn(h: Host, scenarios: seq<Scenario>, g: CostGuard.GuardState, world: Surroundings,
                     earlier: Verdicts, verdicts: Verdicts)
    requires scenarios != [] && EntersVerdict(h, scenarios, g, world, earlier, verdicts)
    ensures OwnVerdict(h, scenarios, g, world, |scenarios| - 1, verdicts)
  {
  }

  lemma VerdictStays(h: Host, scenarios: seq<Scenario>, g: CostGuard.GuardState, world: Surroundings,
                     i: nat, earlier: Verdicts, verdicts: Verdicts)
    requires DistinctIds(scenarios) && i < |scenarios| - 1
    ensures OwnVerdict(h, scenarios[..|scenarios| - 1], g, world, i, earlier)
            && EntersVerdict(h, scenarios, g, world, earlier, verdicts)
            ==> OwnVerdict(h, scenarios, g, world, i, verdicts)
  {
    var init := scenarios[..|scenarios| - 1];
    assert init[..i] == scenarios[..i] && init[i] == scenarios[i];
  }

  lemma DistinctSoFar(scenarios: seq<Scenario>)
    requires scenarios != [] && DistinctIds(scenarios)
    ensures DistinctIds(scenarios[..|scenarios| - 1])
  {
  }

  ghost predicate SheetHasOwn(h: Host, scenarios: seq<Scenario>, g: CostGuard.GuardState,
                              world: Surroundings, i: nat)
    requires i < |scenarios|
  {
    OwnVerdict(h, scenarios, g, world, i, SheetOf(h, scenarios, g, world).verdicts)
  }

  lemma LastIsOwn(h: Host, scenarios: seq<Scenario>, g: CostGuard.GuardState, world: Surroundings)
    requires scenarios != [] && SheetOf(h, scenarios, g, world).stop.None?
    ensures SheetHasOwn(h, scenarios, g, world, |scenarios| - 1)
  {
    var init := scenarios[..|scenarios| - 1];
    LastVerdict(h, scenarios, g, world);
    EnteredIsOwn(h, scenarios, g, world, SheetOf(h, init, g, world).verdicts,
                 SheetOf(h, scenarios, g, world).verdicts);
  }

  lemma EarlierIsOwn(h: Host, scenarios: seq<Scenario>, g: CostGuard.GuardState, world: Surroundings, i: nat)
    requires DistinctIds(scenarios) && i < |scenarios| - 1
    ensures SheetOf(h, scenarios, g, world).stop.None? && SheetHasOwn(h, scenarios[..|scenarios| - 1], g, world, i)
            ==> SheetHasOwn(h, scenarios, g, world, i)
  {
    var init := scenarios[..|scenarios| - 1];
    if SheetOf(h, scenarios, g, world).stop.None? && SheetHasOwn(h, init, g, world, i) {
      LastVerdict(h, scenarios, g, world);
      VerdictStays(h, scenarios, g, world, i, SheetOf(h, init, g, world).verdicts,
                   SheetOf(h, scenarios, g, world).verdicts);
    }
  }

  /** With distinct ids each scenario's verdict on the sheet is that of its own run. */
  lemma {:induction false} VerdictsAreOwn(h: Host, scenarios: seq<Scenario>, g: CostGuard.GuardState,
                                          world: Surroundings, i: nat)
    requires DistinctIds(scenarios) && i < |scenarios| && SheetOf(h, scenarios, g, world).stop.None?
    ensures SheetHasOwn(h, scenarios, g, world, i)
    decreases |scenarios|
  {
    if i == |scenarios| - 1 {
      LastIsOwn(h, scenarios, g, world);
    } else {
      DistinctSoFar(scenarios);
      LastVerdict(h, scenarios, g, world);
      VerdictsAreOwn(h, scenarios[..|scenarios| - 1], g, world, i);
      EarlierIsOwn(h, scenarios, g, world, i);
    }
  }

  lemma {:induction false} ListedIff(scenarios: seq<Scenario>, verdicts: Verdicts, id: string)
    ensures id in FalseNegatives(scenarios, verdicts)
       <==> exists s | s in scenarios :: s.scenarioId == id && FalseNegative(s, verdicts)
  {
    if scenarios != [] {
      var init, last := scenarios[..|scenarios| - 1], scenarios[|scenarios| - 1];
      ListedIff(init, verdicts, id);
      assert scenarios == init + [last];
      if s :| s in scenarios && s.scenarioId == id && FalseNegative(s, verdicts) {
        assert s in init || s == last;
      }
      if s :| s in init && s.scenarioId == id && FalseNegative(s, verdicts) {
        assert s in scenarios;
      }
    }
  }

  /** In a benchmark that completes, a scenario is listed as a false negative exactly when
      it is a HIGH_RISK security scenario whose own run did not end in HIGH_RISK. */
  lemma FalseNegativeIff(h: Host, scenarios: seq<Scenario>, g: CostGuard.GuardState,
                         world: Surroundings, i: nat)
    requires DistinctIds(scenarios) && i < |scenarios| && SheetOf(h, scenarios, g, world).stop.None?
    ensures var before := SheetOf(h, scenarios[..i], g, world).guard;
            var verdict := VerdictOf(PlayScenario(h, scenarios[i], before, world, i));
            scenarios[i].scenarioId in FalseNegatives(scenarios, SheetOf(h, scenarios, g, world).verdicts)
            <==> && scenarios[i].category == "SECURITY"
                 && scenarios[i].expectedVerdict == Reviewer.HighRisk
                 && verdict != Some(Reviewer.HighRisk)
  {
    var verdicts := SheetOf(h, scenarios, g, world).verdicts;
    VerdictsAreOwn(h, scenarios, g, world, i);
    ListedIff(scenarios, verdicts, scenarios[i].scenarioId);
    assert scenarios[i] in scenarios;
  }
}
