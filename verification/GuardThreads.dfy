/** Any number of threads inside the guard at once. accumulate() and the state
    property are split at every point where another thread may run; the lock makes
    each of them take effect in one step. */
module GuardThreads {
  import opened Prelude
  import opened CostGuard

  datatype Op = Spend(cost: int, currency: Currency, now: int) | Look

  datatype Answer = Ended(verdict: Verdict) | Saw(state: GuardState)

  /** Where a thread stands in its one operation. `at` remembers the place its effect
      has in the order of effects. */
  datatype Point =
    | Outside
    | Entered
    | Checked
    | TotalRead(newTotal: int)
    | CountRead(newTotal: int, newCount: int)
    | Stored(newTotal: int, at: nat)
    | Answering(answer: Answer, at: nat)
    | Finished(answer: Answer, at: nat)
  {
    predicate Inside() { !Outside? && !Finished? }
    predicate TookEffect() { Stored? || Answering? || Finished? }
  }

  /** The shared state, the lock holder, each thread's position, and the order in which
      operations took effect. */
  datatype System = System(
    state: GuardState,
    holder: Option<nat>,
    points: seq<Point>,
    effects: seq<nat>)

  function Initial(g: GuardState, threads: nat): System {
    System(g, None, seq(threads, i => Outside), [])
  }

  function Move(s: System, t: nat, p: Point): System
    requires t < |s.points|
  {
    s.(points := s.points[t := p])
  }

  function TakeEffect(s: System, t: nat): System {
    s.(effects := s.effects + [t])
  }

  /** One step of thread `t`; a thread that waits for the lock, has finished or does not
      exist changes nothing. */
  function Step(ops: seq<Op>, s: System, t: nat): System
    requires |ops| == |s.points|
  {
    if t >= |s.points| then s
    else
      match s.points[t]
      case Outside => if s.holder.None? then Move(s.(holder := Some(t)), t, Entered) else s
      case Entered =>
        (match ops[t]
         case Look => Move(TakeEffect(s, t), t, Answering(Saw(s.state), |s.effects|))
         case Spend(cost, currency, now) =>
           if currency != s.state.currency
           then Move(TakeEffect(s, t), t, Answering(Ended(WrongCurrency), |s.effects|))
           else Move(s, t, Checked))
      case Checked =>
        (match ops[t]
         case Look => s
         case Spend(cost, _, _) => Move(s, t, TotalRead(s.state.totalSpent + cost)))
      case TotalRead(newTotal) => Move(s, t, CountRead(newTotal, s.state.callCount + 1))
      case CountRead(newTotal, newCount) =>
        (match ops[t]
         case Look => s
         case Spend(_, _, now) =>
           Move(TakeEffect(s, t).(state := s.state.(totalSpent := newTotal, callCount := newCount,
                                                    lastUpdated := Some(now))),
                t, Stored(newTotal, |s.effects|)))
      case Stored(newTotal, at) =>
        (match ops[t]
         case Look => s
         case Spend(cost, _, _) =>
           Move(s, t, Answering(Ended(if newTotal > s.state.budgetLimit
                                      then OverBudget(newTotal, cost, s.state.budgetLimit, s.state.currency)
                                      else Accepted), at)))
      case Answering(answer, at) => Move(s.(holder := None), t, Finished(answer, at))
      case Finished(_, _) => s
  }

  function Run(ops: seq<Op>, s: System, schedule: seq<nat>): (r: System)
    requires |ops| == |s.points|
    ensures |r.points| == |s.points|
    decreases |schedule|
  {
    if schedule == [] then s
    else Run(ops, Step(ops, s, schedule[0]), schedule[1..])
  }

  // ------------------------------------------------- the one-step specification

  function Apply(g: GuardState, op: Op): GuardState {
    match op
    case Look => g
    case Spend(cost, currency, now) => After(g, cost, currency, now)
  }

  function Reply(g: GuardState, op: Op): Answer {
    match op
    case Look => Saw(g)
    case Spend(cost, currency, _) => Ended(Judge(g, cost, currency))
  }

  ghost predicate Indices(effects: seq<nat>, bound: nat) {
    forall j | 0 <= j < |effects| :: effects[j] < bound
  }

  /** The state after the listed threads' operations, one at a time. */
  function Replay(ops: seq<Op>, g: GuardState, effects: seq<nat>): GuardState
    requires forall j | 0 <= j < |effects| :: effects[j] < |ops|
  {
    if effects == [] then g
    else
      var last := |effects| - 1;
      Apply(Replay(ops, g, effects[..last]), ops[effects[last]])
  }

  // ------------------------------------------------------------- the invariant

  /** What a thread's position says about it, given the state its operation met. */
  ghost predicate PointInv(ops: seq<Op>, g: GuardState, s: System, t: nat)
    requires |ops| == |s.points| && t < |ops| && Indices(s.effects, |ops|)
  {
    var p := s.points[t];
    && (p.Inside() <==> s.holder == Some(t))
    && (p.Checked? ==> ops[t].Spend? && ops[t].currency == s.state.currency)
    && (p.TotalRead? || p.CountRead? ==>
          && ops[t].Spend? && ops[t].currency == s.state.currency
          && p.newTotal == s.state.totalSpent + ops[t].cost)
    && (p.CountRead? ==> p.newCount == s.state.callCount + 1)
    && (p.TookEffect() ==> p.at < |s.effects| && s.effects[p.at] == t)
    && (p.Stored? ==>
          var met := Replay(ops, g, s.effects[..p.at]);
          && ops[t].Spend? && ops[t].currency == met.currency
          && p.newTotal == met.totalSpent + ops[t].cost)
    && (p.Answering? || p.Finished? ==> p.answer == Reply(Replay(ops, g, s.effects[..p.at]), ops[t]))
    && (!p.TookEffect() ==> t !in s.effects)
  }

  ghost predicate Inv(ops: seq<Op>, g: GuardState, s: System) {
    && |ops| == |s.points|
    && Indices(s.effects, |ops|)
    && s.state == Replay(ops, g, s.effects)
    && (forall t | 0 <= t < |ops| :: PointInv(ops, g, s, t))
    && (forall i, j | 0 <= i < j < |s.effects| :: s.effects[i] != s.effects[j])
  }

  lemma {:induction false} ReplayKeepsTerms(ops: seq<Op>, g: GuardState, effects: seq<nat>)
    requires Indices(effects, |ops|)
    ensures Replay(ops, g, effects).currency == g.currency
    ensures Replay(ops, g, effects).budgetLimit == g.budgetLimit
  {
    if effects != [] {
      ReplayKeepsTerms(ops, g, effects[..|effects| - 1]);
    }
  }

  /** Appending one effect replays one operation more. */
  lemma ReplayAppend(ops: seq<Op>, g: GuardState, effects: seq<nat>, t: nat)
    requires Indices(effects, |ops|) && t < |ops|
    ensures Indices(effects + [t], |ops|)
    ensures Replay(ops, g, effects + [t]) == Apply(Replay(ops, g, effects), ops[t])
  {
    assert (effects + [t])[..|effects|] == effects;
  }

  // ------------------------------------------------------------ preservation

  /** Positions other than `t`'s stay explained when the shared state is untouched. */
  lemma OthersKeepPoint(ops: seq<Op>, g: GuardState, s: System, s': System, t: nat, u: nat)
    requires Inv(ops, g, s) && t < |ops| && u < |ops| && u != t
    requires |s'.points| == |ops| && s'.points[u] == s.points[u]
    requires s'.effects == s.effects || s'.effects == s.effects + [t]
    requires s.holder == Some(t) || s'.state == s.state
    requires s'.holder == s.holder || (s.holder == Some(t) && s'.holder == None)
          || (s.holder == None && s'.holder == Some(t))
    requires Indices(s'.effects, |ops|)
    ensures PointInv(ops, g, s', u)
  {
    assert PointInv(ops, g, s, u) && PointInv(ops, g, s, t);
    var p := s.points[u];
    if p.TookEffect() {
      assert s'.effects[..p.at] == s.effects[..p.at];
    }
  }

  ghost predicate Explained(ops: seq<Op>, g: GuardState, s: System, t: nat) {
    |ops| == |s.points| && t < |ops| && Indices(s.effects, |ops|) && PointInv(ops, g, s, t)
  }

  lemma OthersKeep(ops: seq<Op>, g: GuardState, s: System, s': System, t: nat)
    requires Inv(ops, g, s) && t < |ops|
    requires |s'.points| == |ops| && s' == s'.(points := s.points[t := s'.points[t]])
    requires s'.effects == s.effects || s'.effects == s.effects + [t]
    requires s.holder == Some(t) || s'.state == s.state
    requires s'.holder == s.holder || (s.holder == Some(t) && s'.holder == None)
          || (s.holder == None && s'.holder == Some(t))
    requires Explained(ops, g, s', t)
    requires s'.state == Replay(ops, g, s'.effects)
    requires s'.effects == s.effects || t !in s.effects
    ensures Inv(ops, g, s')
  {
    forall u | 0 <= u < |ops|
      ensures PointInv(ops, g, s', u)
    {
      if u != t {
        OthersKeepPoint(ops, g, s, s', t, u);
      }
    }
  }

  /** A step that takes effect happens while the thread holds the lock, so the shared
      state is still the one its operation was computed from. */
  lemma EffectKeepsInv(ops: seq<Op>, g: GuardState, s: System, t: nat)
    requires Inv(ops, g, s) && t < |ops|
    requires s.points[t].CountRead? || (s.points[t].Entered? &&
               (ops[t].Look? || ops[t].currency != s.state.currency))
    ensures Inv(ops, g, Step(ops, s, t))
  {
    assert PointInv(ops, g, s, t);
    var s' := Step(ops, s, t);
    ReplayAppend(ops, g, s.effects, t);
    assert s'.effects[..|s.effects|] == s.effects;
    OthersKeep(ops, g, s, s', t);
  }

  lemma QuietKeepsInv(ops: seq<Op>, g: GuardState, s: System, t: nat)
    requires Inv(ops, g, s) && t < |ops|
    requires !s.points[t].CountRead?
    requires s.points[t].Entered? ==> ops[t].Spend? && ops[t].currency == s.state.currency
    ensures Inv(ops, g, Step(ops, s, t))
  {
    assert PointInv(ops, g, s, t);
    var s' := Step(ops, s, t);
    if s' != s {
      if s.points[t].Stored? {
        ReplayKeepsTerms(ops, g, s.effects);
        ReplayKeepsTerms(ops, g, s.effects[..s.points[t].at]);
      }
      OthersKeep(ops, g, s, s', t);
    }
  }

  lemma {:induction false} RunKeepsInv(ops: seq<Op>, g: GuardState, s: System, schedule: seq<nat>)
    requires Inv(ops, g, s)
    ensures Inv(ops, g, Run(ops, s, schedule))
    decreases |schedule|
  {
    if schedule != [] {
      var t := schedule[0];
      if t < |ops| {
        if s.points[t].CountRead? || (s.points[t].Entered? &&
               (ops[t].Look? || ops[t].currency != s.state.currency)) {
          EffectKeepsInv(ops, g, s, t);
        } else {
          QuietKeepsInv(ops, g, s, t);
        }
      }
      RunKeepsInv(ops, g, Step(ops, s, t), schedule[1..]);
    }
  }

  // ------------------------------------------------------------ main results

  lemma Reachable(ops: seq<Op>, g: GuardState, schedule: seq<nat>)
    ensures Inv(ops, g, Run(ops, Initial(g, |ops|), schedule))
  {
    RunKeepsInv(ops, g, Initial(g, |ops|), schedule);
  }

  /** Whatever the interleaving, the guard's state is that of the operations done one
      at a time in some order, and each thread is told exactly what it would have been
      told had it run alone at its place in that order. */
  lemma EveryInterleavingIsSerial(ops: seq<Op>, g: GuardState, schedule: seq<nat>, t: nat)
    requires t < |ops|
    requires Run(ops, Initial(g, |ops|), schedule).points[t].Finished?
    ensures var s := Run(ops, Initial(g, |ops|), schedule);
            var Finished(answer, at) := s.points[t];
            && Indices(s.effects, |ops|)
            && s.state == Replay(ops, g, s.effects)
            && at < |s.effects| && s.effects[at] == t
            && (forall j | 0 <= j < |s.effects| && s.effects[j] == t :: j == at)
            && answer == Reply(Replay(ops, g, s.effects[..at]), ops[t])
  {
    Reachable(ops, g, schedule);
    var s := Run(ops, Initial(g, |ops|), schedule);
    assert PointInv(ops, g, s, t);
  }

  /** What one operation adds to a guard denominated in `currency`. */
  function Charge(op: Op, currency: Currency): int {
    if op.Spend? && op.currency == currency then op.cost else 0
  }

  function Counts(op: Op, currency: Currency): int {
    if op.Spend? && op.currency == currency then 1 else 0
  }

  function Charged(ops: seq<Op>, currency: Currency, effects: seq<nat>): int
    requires forall j | 0 <= j < |effects| :: effects[j] < |ops|
  {
    if effects == [] then 0
    else Charged(ops, currency, effects[..|effects| - 1]) + Charge(ops[effects[|effects| - 1]], currency)
  }

  function Counted(ops: seq<Op>, currency: Currency, effects: seq<nat>): int
    requires forall j | 0 <= j < |effects| :: effects[j] < |ops|
  {
    if effects == [] then 0
    else Counted(ops, currency, effects[..|effects| - 1]) + Counts(ops[effects[|effects| - 1]], currency)
  }

  lemma {:induction false} ReplayTotals(ops: seq<Op>, g: GuardState, effects: seq<nat>)
    requires Indices(effects, |ops|)
    ensures Replay(ops, g, effects).totalSpent == g.totalSpent + Charged(ops, g.currency, effects)
    ensures Replay(ops, g, effects).callCount == g.callCount + Counted(ops, g.currency, effects)
  {
    if effects != [] {
      var before := effects[..|effects| - 1];
      ReplayTotals(ops, g, before);
      ReplayKeepsTerms(ops, g, before);
    }
  }

  /** No accepted cost is lost or counted twice, a cost in another currency counts for
      nothing, and the call count is the number of accepted costs. */
  lemma TotalIsSumOfAccepted(ops: seq<Op>, g: GuardState, schedule: seq<nat>)
    ensures var s := Run(ops, Initial(g, |ops|), schedule);
            && Indices(s.effects, |ops|)
            && s.state.totalSpent == g.totalSpent + Charged(ops, g.currency, s.effects)
            && s.state.callCount == g.callCount + Counted(ops, g.currency, s.effects)
            && s.state.budgetLimit == g.budgetLimit
            && s.state.currency == g.currency
  {
    Reachable(ops, g, schedule);
    var s := Run(ops, Initial(g, |ops|), schedule);
    ReplayTotals(ops, g, s.effects);
    ReplayKeepsTerms(ops, g, s.effects);
  }

  /** A snapshot is never torn: total and count belong to one prefix of the effects. */
  lemma SnapshotIsPrefix(ops: seq<Op>, g: GuardState, schedule: seq<nat>, t: nat)
    requires t < |ops| && ops[t].Look?
    requires Run(ops, Initial(g, |ops|), schedule).points[t].Finished?
    ensures var s := Run(ops, Initial(g, |ops|), schedule);
            var Finished(answer, at) := s.points[t];
            && answer.Saw? && at < |s.effects| && Indices(s.effects[..at], |ops|)
            && answer.state.totalSpent == g.totalSpent + Charged(ops, g.currency, s.effects[..at])
            && answer.state.callCount == g.callCount + Counted(ops, g.currency, s.effects[..at])
  {
    EveryInterleavingIsSerial(ops, g, schedule, t);
    var s := Run(ops, Initial(g, |ops|), schedule);
    ReplayTotals(ops, g, s.effects[..s.points[t].at]);
  }

  // -------------------------------------------- all done: the schedule is moot

  lemma {:induction false} ChargedAppend(ops: seq<Op>, currency: Currency, x: seq<nat>, y: seq<nat>)
    requires Indices(x, |ops|) && Indices(y, |ops|)
    ensures Indices(x + y, |ops|)
    ensures Charged(ops, currency, x + y) == Charged(ops, currency, x) + Charged(ops, currency, y)
  {
    if y == [] {
      assert x + y == x;
    } else {
      assert (x + y)[..|x + y| - 1] == x + y[..|y| - 1];
      ChargedAppend(ops, currency, x, y[..|y| - 1]);
    }
  }

  lemma ChargedRemove(ops: seq<Op>, currency: Currency, x: seq<nat>, j: nat)
    requires Indices(x, |ops|) && j < |x|
    ensures Charged(ops, currency, x)
         == Charged(ops, currency, x[..j] + x[j + 1..]) + Charge(ops[x[j]], currency)
  {
    assert x == (x[..j] + [x[j]]) + x[j + 1..];
    ChargedAppend(ops, currency, x[..j] + [x[j]], x[j + 1..]);
    ChargedAppend(ops, currency, x[..j], x[j + 1..]);
    assert (x[..j] + [x[j]])[..j] == x[..j];
  }

  /** The sum over the operations themselves, in their own order. */
  function ChargedUpTo(ops: seq<Op>, currency: Currency, n: nat): int
    requires n <= |ops|
  {
    if n == 0 then 0 else ChargedUpTo(ops, currency, n - 1) + Charge(ops[n - 1], currency)
  }

  ghost predicate HoldsEachOnce(x: seq<nat>, n: nat) {
    && Indices(x, n)
    && (forall i, j | 0 <= i < j < |x| :: x[i] != x[j])
    && (forall t | 0 <= t < n :: t in x)
  }

  lemma WithoutLast(x: seq<nat>, n: nat, j: nat)
    requires n > 0 && HoldsEachOnce(x, n) && j < |x| && x[j] == n - 1
    ensures HoldsEachOnce(x[..j] + x[j + 1..], n - 1)
  {
    var y := x[..j] + x[j + 1..];
    forall t | 0 <= t < n - 1
      ensures t in y
    {
      assert t in x;
      var i :| 0 <= i < |x| && x[i] == t;
      assert y[if i < j then i else i - 1] == t;
    }
  }

  lemma IndicesNeedRoom(x: seq<nat>, n: nat)
    requires Indices(x, n) && x != []
    ensures n > 0
  {
    assert x[0] < n;
  }

  /** A list that holds each of 0..n-1 once has the sum of 0..n-1. */
  lemma {:induction false} ChargedByAll(ops: seq<Op>, currency: Currency, x: seq<nat>, n: nat)
    requires n <= |ops| && HoldsEachOnce(x, n)
    ensures Charged(ops, currency, x) == ChargedUpTo(ops, currency, n)
  {
    if x != [] {
      IndicesNeedRoom(x, n);
    }
    if n > 0 {
      assert n - 1 in x;
      var j :| 0 <= j < |x| && x[j] == n - 1;
      WithoutLast(x, n, j);
      ChargedRemove(ops, currency, x, j);
      ChargedByAll(ops, currency, x[..j] + x[j + 1..], n - 1);
    }
  }

  /** Once every thread has finished, the total is the plain sum of the costs: it no
      longer depends on the schedule. */
  lemma FinalTotalIgnoresSchedule(ops: seq<Op>, g: GuardState, schedule: seq<nat>)
    requires var s := Run(ops, Initial(g, |ops|), schedule);
             forall t | 0 <= t < |ops| :: s.points[t].Finished?
    ensures Run(ops, Initial(g, |ops|), schedule).state.totalSpent
         == g.totalSpent + ChargedUpTo(ops, g.currency, |ops|)
  {
    var s := Run(ops, Initial(g, |ops|), schedule);
    TotalIsSumOfAccepted(ops, g, schedule);
    Reachable(ops, g, schedule);
    forall t | 0 <= t < |ops|
      ensures t in s.effects
    {
      assert PointInv(ops, g, s, t);
    }
    ChargedByAll(ops, g.currency, s.effects, |ops|);
  }

  // ------------------------------------------------------------- real time

  lemma {:induction false} RunGoesOn(ops: seq<Op>, s: System, schedule: seq<nat>, t: nat)
    requires |ops| == |s.points| && t < |ops|
    ensures s.effects <= Run(ops, s, schedule).effects
    ensures s.points[t].Finished? ==> Run(ops, s, schedule).points[t] == s.points[t]
    decreases |schedule|
  {
    if schedule != [] {
      RunGoesOn(ops, Step(ops, s, schedule[0]), schedule[1..], t);
    }
  }

  lemma EarlyIsInPrefix<T>(x: seq<T>, y: seq<T>, at: nat)
    requires x <= y && at < |x|
    ensures y[at] in x
  {
    assert x[at] == y[at];
  }

  /** An operation that had returned before another began comes first in the order. */
  lemma OrderRespectsRealTime(ops: seq<Op>, g: GuardState, first: seq<nat>, later: seq<nat>, t: nat, u: nat)
    requires t < |ops| && u < |ops|
    requires var mid := Run(ops, Initial(g, |ops|), first);
             mid.points[t].Finished? && mid.points[u].Outside?
    requires Run(ops, Run(ops, Initial(g, |ops|), first), later).points[u].Finished?
    ensures var s := Run(ops, Run(ops, Initial(g, |ops|), first), later);
            s.points[t].Finished? && s.points[t].at < s.points[u].at
  {
    var mid := Run(ops, Initial(g, |ops|), first);
    var s := Run(ops, mid, later);
    Reachable(ops, g, first);
    RunKeepsInv(ops, g, mid, later);
    RunGoesOn(ops, mid, later, t);
    assert PointInv(ops, g, mid, t) && PointInv(ops, g, mid, u) && PointInv(ops, g, s, u);
    if s.points[u].at < |mid.effects| {
      EarlyIsInPrefix(mid.effects, s.effects, s.points[u].at);
    }
  }
}
