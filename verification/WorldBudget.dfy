/** How far concurrent runs can overshoot the shared budget. */
module WorldBudget {
  import opened Prelude
  import opened Pipeline
  import opened PipelineProofs
  import opened World
  import opened WorldSafety
  import CostGuard
  import PipelineBounds
  import Verifier

  // -------------------------------------------------------- what a step spends

  /** No answered call of the step costs more than `c`. */
  predicate Cheap(i: Input, c: nat) {
    (i.first.Answered? ==> i.first.cost <= c) && (i.second.Answered? ==> i.second.cost <= c)
  }

  /** The guard before and after, given whether the step tripped it. */
  ghost predicate Spends(g: CostGuard.GuardState, g': CostGuard.GuardState, tripped: bool, c: nat) {
    && g'.currency == g.currency && g'.budgetLimit == g.budgetLimit
    && g.totalSpent <= g'.totalSpent
    && (if tripped then g'.budgetLimit < g'.totalSpent <= g.totalSpent + c
        else g'.totalSpent == g.totalSpent || g'.totalSpent <= g'.budgetLimit)
  }

  lemma StepSpends(h: Host, r: Run, g: CostGuard.GuardState, i: Input, c: nat)
    requires PipelineBounds.RetryNode(r) && g.currency == CostGuard.CNY && Cheap(i, c)
    ensures var o := Step(h, r, g, i);
            Spends(g, o.guard, Tripped in o.events, c)
  {
    PipelineBounds.SpendsExactly(h, r, g, i);
  }

  // ----------------------------------------------------------- runs that tripped

  function TrippedRuns(runs: seq<Run>): nat {
    if runs == [] then 0
    else TrippedRuns(runs[..|runs| - 1]) + if runs[|runs| - 1].state.costExhausted then 1 else 0
  }

  lemma {:induction false} TrippedUpdate(runs: seq<Run>, i: nat, r: Run)
    requires i < |runs|
    ensures TrippedRuns(runs[i := r])
         == TrippedRuns(runs) - (if runs[i].state.costExhausted then 1 else 0)
                              + (if r.state.costExhausted then 1 else 0)
  {
    var last := |runs| - 1;
    if i == last {
      assert runs[i := r][..last] == runs[..last];
    } else {
      assert runs[i := r][..last] == runs[..last][i := r];
      TrippedUpdate(runs[..last], i, r);
    }
  }

  /** Runs that were begun and not resumed. */
  function BegunRuns(runs: seq<Run>): nat {
    if runs == [] then 0
    else BegunRuns(runs[..|runs| - 1]) + if runs[|runs| - 1].approved then 0 else 1
  }

  /** A resumed run makes no calls and carries no budget flag. */
  ghost predicate ResumedRunsAreQuiet(runs: seq<Run>) {
    forall i | 0 <= i < |runs| && runs[i].approved ::
      !runs[i].state.costExhausted && PipelineBounds.CallsLeft(runs[i].phase) == 0
  }

  lemma {:induction false} TrippedWereBegun(runs: seq<Run>)
    requires ResumedRunsAreQuiet(runs)
    ensures TrippedRuns(runs) <= BegunRuns(runs)
  {
    if runs != [] {
      TrippedWereBegun(runs[..|runs| - 1]);
    }
  }

  lemma {:induction false} BegunUpdate(runs: seq<Run>, i: nat, r: Run)
    requires i < |runs| && r.approved == runs[i].approved
    ensures BegunRuns(runs[i := r]) == BegunRuns(runs)
  {
    var last := |runs| - 1;
    if i == last {
      assert runs[i := r][..last] == runs[..last];
    } else {
      assert runs[i := r][..last] == runs[..last][i := r];
      BegunUpdate(runs[..last], i, r);
    }
  }

  lemma BegunAppend(runs: seq<Run>, r: Run)
    ensures BegunRuns(runs + [r]) == BegunRuns(runs) + if r.approved then 0 else 1
  {
    assert (runs + [r])[..|runs|] == runs;
  }

  /** A run trips only while it is still on budget: each run at most once. */
  lemma TripIsFirst(h: Host, r: Run, g: CostGuard.GuardState, i: Input)
    requires RunInv(r)
    ensures Tripped in Step(h, r, g, i).events ==>
              !r.state.costExhausted && Step(h, r, g, i).run.state.costExhausted
    ensures Tripped !in Step(h, r, g, i).events ==>
              Step(h, r, g, i).run.state.costExhausted == r.state.costExhausted
  {
    PipelineBounds.StepEventsHold(h, r, g, i);
    if r.state.costExhausted {
      assert PipelineBounds.CallsLeft(r.phase) == 0;
      NoCallNoTrip(h, r, g, i);
    }
  }

  lemma NoCallNoTrip(h: Host, r: Run, g: CostGuard.GuardState, i: Input)
    requires PipelineBounds.RetryNode(r) && PipelineBounds.CallsLeft(r.phase) == 0
    ensures Tripped !in Step(h, r, g, i).events
  {
    PipelineBounds.StepEventsHold(h, r, g, i);
    PipelineBounds.NoCallsNoMembers(Step(h, r, g, i).events);
  }

  // ------------------------------------------------------------------ the bound

  predicate CheapAction(a: Action, c: nat) {
    a.Advance? ==> Cheap(a.input, c)
  }

  ghost predicate AllCheap(actions: seq<Action>, c: nat) {
    forall k | 0 <= k < |actions| :: CheapAction(actions[k], c)
  }

  ghost predicate Bounded(w: World, c: nat) {
    && w.guard.currency == CostGuard.CNY
    && w.guard.totalSpent <= w.guard.budgetLimit + TrippedRuns(w.runs) * c
  }

  lemma BoundArithmetic(g: CostGuard.GuardState, g': CostGuard.GuardState, n: nat, n': nat, c: nat)
    requires Spends(g, g', n' == n + 1, c) && n <= n' <= n + 1
    requires g.totalSpent <= g.budgetLimit + n * c
    ensures g'.totalSpent <= g'.budgetLimit + n' * c
  {
    assert (n + 1) * c == n * c + c;
  }

  lemma StepTrips(h: Host, runs: seq<Run>, index: nat, g: CostGuard.GuardState, i: Input)
    requires index < |runs| && RunInv(runs[index])
    ensures var o := Step(h, runs[index], g, i);
            TrippedRuns(runs[index := o.run]) == TrippedRuns(runs) + if Tripped in o.events then 1 else 0
  {
    TripIsFirst(h, runs[index], g, i);
    TrippedUpdate(runs, index, Step(h, runs[index], g, i).run);
  }

  lemma AdvanceKeepsBound(h: Host, durable: bool, w: World, index: nat, input: Input, c: nat)
    requires WorldInv(h, w) && Bounded(w, c) && Cheap(input, c)
    ensures Bounded(Act(h, durable, w, Advance(index, input)), c)
  {
    if index < |w.runs| {
      var r := w.runs[index];
      assert Known(w.log, r);
      var o := Step(h, r, w.guard, input);
      StepSpends(h, r, w.guard, input, c);
      StepTrips(h, w.runs, index, w.guard, input);
      BoundArithmetic(w.guard, o.guard, TrippedRuns(w.runs), TrippedRuns(w.runs[index := o.run]), c);
    }
  }

  lemma AddedRunKeepsBound(w: World, r: Run, c: nat)
    requires Bounded(w, c) && !r.state.costExhausted
    ensures TrippedRuns(w.runs + [r]) == TrippedRuns(w.runs)
  {
    assert (w.runs + [r])[..|w.runs|] == w.runs;
  }

  lemma ApproveKeepsBound(h: Host, durable: bool, w: World, thread: string, c: nat)
    requires WorldInv(h, w) && Bounded(w, c)
    ensures Bounded(Act(h, durable, w, Approve(thread)), c)
  {
    if thread in w.parked {
      assert Known(w.log, w.parked[thread]);
      SuspendedIsOnBudget(w.parked[thread]);
      AddedRunKeepsBound(w, Resume(w.parked[thread]), c);
    }
  }

  lemma SuspendedIsOnBudget(r: Run)
    requires RunInv(r) && r.phase.Suspended?
    ensures !Resume(r).state.costExhausted && Resume(r).approved && PipelineBounds.CallsLeft(Resume(r).phase) == 0
  {
  }

  lemma ActKeepsBound(h: Host, durable: bool, w: World, a: Action, c: nat)
    requires WorldInv(h, w) && Bounded(w, c) && CheapAction(a, c)
    ensures Bounded(Act(h, durable, w, a), c)
  {
    match a
    case Begin(thread, logPath, traceId) =>
      AddedRunKeepsBound(w, Pipeline.Start(thread, logPath, traceId), c);
    case Advance(index, input) => AdvanceKeepsBound(h, durable, w, index, input, c);
    case Restart(_) =>
    case Approve(thread) => ApproveKeepsBound(h, durable, w, thread, c);
  }

  lemma {:induction false} HistoryKeepsBound(h: Host, durable: bool, w: World, actions: seq<Action>, c: nat)
    requires WorldInv(h, w) && Bounded(w, c)
    requires AllCheap(actions, c)
    ensures Bounded(History(h, durable, w, actions), c)
    decreases |actions|
  {
    if actions != [] {
      ActKeepsInv(h, durable, w, actions[0]);
      ActKeepsBound(h, durable, w, actions[0], c);
      HistoryKeepsBound(h, durable, Act(h, durable, w, actions[0]), actions[1..], c);
    }
  }

  // ----------------------------------------------- runs begun since the restart

  function CountStart(w: World, a: Action, n: nat): nat {
    match a
    case Begin(thread, _, _) => if thread in w.used then n else n + 1
    case Restart(_) => 0
    case _ => n
  }

  /** The runs begun since the process started: `n` before these actions. */
  function Starts(h: Host, durable: bool, w: World, actions: seq<Action>, n: nat): nat
    decreases |actions|
  {
    if actions == [] then n
    else Starts(h, durable, Act(h, durable, w, actions[0]), actions[1..], CountStart(w, actions[0], n))
  }

  lemma StepKeepsApproval(h: Host, r: Run, g: CostGuard.GuardState, i: Input)
    ensures Step(h, r, g, i).run.approved == r.approved
  {
  }

  lemma StepKeepsQuiet(h: Host, r: Run, g: CostGuard.GuardState, i: Input)
    requires RunInv(r) && !r.state.costExhausted && PipelineBounds.CallsLeft(r.phase) == 0
    ensures var s := Step(h, r, g, i).run;
            !s.state.costExhausted && PipelineBounds.CallsLeft(s.phase) == 0
  {
    TripIsFirst(h, r, g, i);
    NoCallNoTrip(h, r, g, i);
    PipelineBounds.StepEventsHold(h, r, g, i);
  }

  lemma AdvanceCounts(h: Host, durable: bool, w: World, index: nat, input: Input)
    requires WorldInv(h, w) && ResumedRunsAreQuiet(w.runs) && index < |w.runs|
    ensures var e := Act(h, durable, w, Advance(index, input));
            ResumedRunsAreQuiet(e.runs) && BegunRuns(e.runs) == BegunRuns(w.runs)
  {
    var r := w.runs[index];
    assert Known(w.log, r);
    var s := Step(h, r, w.guard, input).run;
    StepKeepsApproval(h, r, w.guard, input);
    BegunUpdate(w.runs, index, s);
    if r.approved {
      StepKeepsQuiet(h, r, w.guard, input);
    }
  }

  lemma ResumedRunIsQuiet(runs: seq<Run>, r: Run)
    requires ResumedRunsAreQuiet(runs) && RunInv(r) && r.phase.Suspended?
    ensures ResumedRunsAreQuiet(runs + [Resume(r)]) && BegunRuns(runs + [Resume(r)]) == BegunRuns(runs)
  {
    SuspendedIsOnBudget(r);
    QuietRunJoins(runs, Resume(r));
  }

  lemma QuietRunJoins(runs: seq<Run>, r: Run)
    requires ResumedRunsAreQuiet(runs)
    requires r.approved && !r.state.costExhausted && PipelineBounds.CallsLeft(r.phase) == 0
    ensures ResumedRunsAreQuiet(runs + [r]) && BegunRuns(runs + [r]) == BegunRuns(runs)
  {
    BegunAppend(runs, r);
  }

  lemma ApproveCounts(h: Host, durable: bool, w: World, thread: string)
    requires WorldInv(h, w) && ResumedRunsAreQuiet(w.runs)
    ensures var e := Act(h, durable, w, Approve(thread));
            ResumedRunsAreQuiet(e.runs) && BegunRuns(e.runs) == BegunRuns(w.runs)
  {
    if thread in w.parked {
      assert Known(w.log, w.parked[thread]);
      ResumedRunIsQuiet(w.runs, w.parked[thread]);
    }
  }

  lemma BeginCounts(runs: seq<Run>, thread: string, logPath: string, traceId: Option<string>)
    requires ResumedRunsAreQuiet(runs)
    ensures var more := runs + [Pipeline.Start(thread, logPath, traceId)];
            ResumedRunsAreQuiet(more) && BegunRuns(more) == BegunRuns(runs) + 1
  {
    BegunAppend(runs, Pipeline.Start(thread, logPath, traceId));
  }

  lemma ActCounts(h: Host, durable: bool, w: World, a: Action)
    requires WorldInv(h, w) && ResumedRunsAreQuiet(w.runs)
    ensures var e := Act(h, durable, w, a);
            ResumedRunsAreQuiet(e.runs) && BegunRuns(e.runs) == CountStart(w, a, BegunRuns(w.runs))
  {
    match a
    case Begin(thread, logPath, traceId) => BeginCounts(w.runs, thread, logPath, traceId);
    case Advance(index, input) =>
      if index < |w.runs| {
        AdvanceCounts(h, durable, w, index, input);
      }
    case Restart(_) =>
    case Approve(thread) => ApproveCounts(h, durable, w, thread);
  }

  lemma {:induction false} StartsAreBegun(h: Host, durable: bool, w: World, actions: seq<Action>)
    requires WorldInv(h, w) && ResumedRunsAreQuiet(w.runs)
    ensures var e := History(h, durable, w, actions);
            ResumedRunsAreQuiet(e.runs) && BegunRuns(e.runs) == Starts(h, durable, w, actions, BegunRuns(w.runs))
    decreases |actions|
  {
    if actions != [] {
      ActKeepsInv(h, durable, w, actions[0]);
      ActCounts(h, durable, w, actions[0]);
      StartsAreBegun(h, durable, Act(h, durable, w, actions[0]), actions[1..]);
    }
  }

  /** Whatever the interleaving of the runs begun since the process started, spending
      never exceeds the budget by more than one call for each of them; a resumption adds
      nothing to the bound. */
  lemma OvershootAtMostOneCallPerRun(h: Host, durable: bool, g: CostGuard.GuardState,
                                     actions: seq<Action>, c: nat)
    requires g.currency == CostGuard.CNY && g.totalSpent <= g.budgetLimit
    requires AllCheap(actions, c)
    ensures var w := History(h, durable, Initial(g), actions);
            w.guard.totalSpent <= w.guard.budgetLimit + Starts(h, durable, Initial(g), actions, 0) * c
  {
    HistoryKeepsBound(h, durable, Initial(g), actions, c);
    StartsAreBegun(h, durable, Initial(g), actions);
    var w := History(h, durable, Initial(g), actions);
    TrippedWereBegun(w.runs);
    MulMonotone(TrippedRuns(w.runs), BegunRuns(w.runs), c);
  }

  lemma MulMonotone(x: nat, y: nat, c: nat)
    requires x <= y
    ensures x * c <= y * c
  {
  }

  // ------------------------------------------------------------ it is attained

  const TRACE_ID := "00000000000000000000000000000000"

  const LOG := ErrorLog("t", "s", "e", "m", None)

  function Costing(c: nat): Input {
    Input("", Parsed(LOG), Answered("", c), TimedOut, 0,
          Verifier.Sandbox(None, Verifier.ReadTimeout, Verifier.ReadTimeout, Verifier.ReadTimeout, None, None, None),
          WriteFailed(""))
  }

  /** Begin a run and take it through its first call. */
  function FirstCall(thread: string, index: nat, c: nat): seq<Action> {
    [Begin(thread, "log", Some(TRACE_ID)), Advance(index, Costing(c)),
     Advance(index, Costing(c)), Advance(index, Costing(c))]
  }

  lemma FirstCallOfRun(h: Host, thread: string, g: CostGuard.GuardState, c: nat)
    requires g.currency == CostGuard.CNY && g.totalSpent + c > g.budgetLimit
    ensures var r0 := Pipeline.Start(thread, "log", Some(TRACE_ID));
            var o1 := Step(h, r0, g, Costing(c));
            var o2 := Step(h, o1.run, o1.guard, Costing(c));
            var o3 := Step(h, o2.run, o2.guard, Costing(c));
            && o1.guard == g && o2.guard == g
            && o3.guard.currency == g.currency && o3.guard.budgetLimit == g.budgetLimit
            && o3.guard.totalSpent == g.totalSpent + c
  {
    assert IsTraceId(TRACE_ID);
  }

  lemma FirstCallSpends(h: Host, durable: bool, w: World, thread: string, c: nat)
    requires w.guard.currency == CostGuard.CNY && w.guard.totalSpent + c > w.guard.budgetLimit
    requires thread !in w.used
    ensures var w' := History(h, durable, w, FirstCall(thread, |w.runs|, c));
            && |w'.runs| == |w.runs| + 1 && w'.used == w.used + {thread}
            && w'.guard.currency == w.guard.currency && w'.guard.budgetLimit == w.guard.budgetLimit
            && w'.guard.totalSpent == w.guard.totalSpent + c
    ensures forall n: nat :: Starts(h, durable, w, FirstCall(thread, |w.runs|, c), n) == n + 1
  {
    FirstCallOfRun(h, thread, w.guard, c);
    var a := FirstCall(thread, |w.runs|, c);
    var w1 := Act(h, durable, w, a[0]);
    var w2 := Act(h, durable, w1, a[1]);
    var w3 := Act(h, durable, w2, a[2]);
    var w4 := Act(h, durable, w3, a[3]);
    assert a[1..] == [a[1], a[2], a[3]] && a[1..][1..] == [a[2], a[3]] && a[1..][1..][1..] == [a[3]];
    assert a[1..][1..][1..][1..] == [];
    assert History(h, durable, w4, []) == w4;
    assert History(h, durable, w3, [a[3]]) == w4;
    assert History(h, durable, w2, [a[2], a[3]]) == w4;
    assert History(h, durable, w1, [a[1], a[2], a[3]]) == w4;
    forall n: nat
      ensures Starts(h, durable, w, a, n) == n + 1
    {
      assert Starts(h, durable, w3, [a[3]], n + 1) == Starts(h, durable, w4, [], n + 1) == n + 1;
      assert Starts(h, durable, w2, [a[2], a[3]], n + 1) == n + 1;
      assert Starts(h, durable, w1, [a[1], a[2], a[3]], n + 1) == n + 1;
    }
  }

  lemma {:induction false} HistoryConcat(h: Host, durable: bool, w: World, x: seq<Action>, y: seq<Action>)
    ensures History(h, durable, w, x + y) == History(h, durable, History(h, durable, w, x), y)
    decreases |x|
  {
    if x == [] {
      assert x + y == y;
    } else {
      assert (x + y)[1..] == x[1..] + y;
      HistoryConcat(h, durable, Act(h, durable, w, x[0]), x[1..], y);
    }
  }

  lemma {:induction false} StartsConcat(h: Host, durable: bool, w: World, x: seq<Action>, y: seq<Action>, n: nat)
    ensures Starts(h, durable, w, x + y, n)
         == Starts(h, durable, History(h, durable, w, x), y, Starts(h, durable, w, x, n))
    decreases |x|
  {
    if x == [] {
      assert x + y == y;
    } else {
      assert (x + y)[1..] == x[1..] + y;
      StartsConcat(h, durable, Act(h, durable, w, x[0]), x[1..], y, CountStart(w, x[0], n));
    }
  }

  function Name(p: nat): string {
    seq(p, k => 'x')
  }

  ghost predicate Overspent(w: World, g: CostGuard.GuardState, p: nat, c: nat) {
    && |w.runs| == p && (forall t | t in w.used :: |t| < p)
    && w.guard.currency == CostGuard.CNY && w.guard.budgetLimit == g.budgetLimit
    && w.guard.totalSpent == g.budgetLimit + p * c
  }

  lemma OneMoreOverspends(h: Host, durable: bool, w: World, g: CostGuard.GuardState, p: nat, c: nat)
    requires Overspent(w, g, p, c) && c > 0
    ensures Overspent(History(h, durable, w, FirstCall(Name(p), p, c)), g, p + 1, c)
    ensures forall n: nat :: Starts(h, durable, w, FirstCall(Name(p), p, c), n) == n + 1
  {
    assert |Name(p)| == p;
    assert (p + 1) * c == p * c + c;
    MulMonotone(0, p, c);
    FirstCallSpends(h, durable, w, Name(p), c);
  }

  lemma MoreCheap(actions: seq<Action>, thread: string, index: nat, c: nat)
    requires AllCheap(actions, c)
    ensures AllCheap(actions + FirstCall(thread, index, c), c)
  {
  }

  lemma NothingOverspent(h: Host, durable: bool, g: CostGuard.GuardState, c: nat)
    requires g.currency == CostGuard.CNY && g.totalSpent == g.budgetLimit
    ensures Overspent(History(h, durable, Initial(g), []), g, 0, c)
  {
  }

  lemma {:induction false} OvershootFrom(h: Host, durable: bool, g: CostGuard.GuardState, p: nat, c: nat)
    returns (actions: seq<Action>)
    requires g.currency == CostGuard.CNY && g.totalSpent == g.budgetLimit && c > 0
    ensures AllCheap(actions, c) && Overspent(History(h, durable, Initial(g), actions), g, p, c)
    ensures Starts(h, durable, Initial(g), actions, 0) == p
  {
    if p == 0 {
      actions := [];
      NothingOverspent(h, durable, g, c);
    } else {
      var before := OvershootFrom(h, durable, g, p - 1, c);
      var more := FirstCall(Name(p - 1), p - 1, c);
      OneMoreOverspends(h, durable, History(h, durable, Initial(g), before), g, p - 1, c);
      HistoryConcat(h, durable, Initial(g), before, more);
      StartsConcat(h, durable, Initial(g), before, more, 0);
      MoreCheap(before, Name(p - 1), p - 1, c);
      actions := before + more;
    }
  }

  /** The bound cannot be improved: for any number of runs there is a history in which each
      of them makes one call on a guard that was at its limit before the first. */
  lemma OvershootIsAttained(h: Host, durable: bool, g: CostGuard.GuardState, p: nat, c: nat)
    requires g.currency == CostGuard.CNY && g.totalSpent == g.budgetLimit && c > 0
    ensures exists actions ::
              && AllCheap(actions, c)
              && Starts(h, durable, Initial(g), actions, 0) == p
              && History(h, durable, Initial(g), actions).guard.totalSpent == g.budgetLimit + p * c
  {
    var actions := OvershootFrom(h, durable, g, p, c);
  }
}
