/** The lazily built guard: every caller of get_cost_guard() gets the same object. */
module GuardSingleton {
  import opened Prelude

  /** Where a caller stands in the double-checked lookup. */
  datatype Caller =
    | Calling
    | Waiting
    | Locked
    | Creating
    | Holding(made: nat)
    | Leaving
    | Reading
    | Got(guard: nat)
  {
    predicate Inside() { Locked? || Creating? || Holding? || Leaving? }
    predicate PastCheck() { Leaving? || Reading? || Got? }
  }

  /** The module variable, the lock holder, how many guards were ever built (they are
      numbered in that order), and the callers. */
  datatype System = System(singleton: Option<nat>, holder: Option<nat>, built: nat, callers: seq<Caller>)

  function Initial(callers: nat): System {
    System(None, None, 0, seq(callers, i => Calling))
  }

  function Move(s: System, t: nat, c: Caller): System
    requires t < |s.callers|
  {
    s.(callers := s.callers[t := c])
  }

  function Step(s: System, t: nat): System {
    if t >= |s.callers| then s
    else
      match s.callers[t]
      case Calling => Move(s, t, if s.singleton.None? then Waiting else Reading)
      case Waiting => if s.holder.None? then Move(s.(holder := Some(t)), t, Locked) else s
      case Locked => Move(s, t, if s.singleton.None? then Creating else Leaving)
      case Creating => Move(s.(built := s.built + 1), t, Holding(s.built))
      case Holding(made) => Move(s.(singleton := Some(made)), t, Leaving)
      case Leaving => Move(s.(holder := None), t, Reading)
      case Reading => if s.singleton.Some? then Move(s, t, Got(s.singleton.value)) else s
      case Got(_) => s
  }

  function Run(s: System, schedule: seq<nat>): (r: System)
    ensures |r.callers| == |s.callers|
    decreases |schedule|
  {
    if schedule == [] then s else Run(Step(s, schedule[0]), schedule[1..])
  }

  ghost predicate CallerInv(s: System, t: nat)
    requires t < |s.callers|
  {
    var c := s.callers[t];
    && (c.Inside() <==> s.holder == Some(t))
    && (c.Creating? ==> s.singleton.None? && s.built == 0)
    && (c.Holding? ==> s.singleton.None? && s.built == 1 && c.made == 0)
    && (c.PastCheck() ==> s.singleton == Some(0))
    && (c.Got? ==> c.guard == 0)
  }

  ghost predicate Inv(s: System) {
    && (s.holder.Some? ==> s.holder.value < |s.callers|)
    && (s.singleton.Some? ==> s.singleton == Some(0) && s.built == 1)
    && (s.singleton.None? && s.built > 0 ==>
          s.holder.Some? && s.callers[s.holder.value].Holding?)
    && (forall t | 0 <= t < |s.callers| :: CallerInv(s, t))
  }

  lemma StepKeepsInv(s: System, t: nat)
    requires Inv(s)
    ensures Inv(Step(s, t))
  {
    var s' := Step(s, t);
    if t < |s.callers| {
      assert CallerInv(s, t);
      forall u | 0 <= u < |s.callers|
        ensures CallerInv(s', u)
      {
        assert CallerInv(s, u);
      }
    }
  }

  lemma {:induction false} RunKeepsInv(s: System, schedule: seq<nat>)
    requires Inv(s)
    ensures Inv(Run(s, schedule))
    decreases |schedule|
  {
    if schedule != [] {
      StepKeepsInv(s, schedule[0]);
      RunKeepsInv(Step(s, schedule[0]), schedule[1..]);
    }
  }

  /** In every interleaving at most one guard is built, and any two callers that have
      returned hold the same one, which is the one the variable holds. */
  lemma AllCallersShareOneGuard(callers: nat, schedule: seq<nat>, t: nat, u: nat)
    requires t < callers && u < callers
    ensures var s := Run(Initial(callers), schedule);
            && s.built <= 1
            && (s.callers[t].Got? ==> s.singleton == Some(s.callers[t].guard))
            && (s.callers[t].Got? && s.callers[u].Got? ==> s.callers[t].guard == s.callers[u].guard)
  {
    RunKeepsInv(Initial(callers), schedule);
    var s := Run(Initial(callers), schedule);
    assert CallerInv(s, t) && CallerInv(s, u);
    if s.holder.Some? {
      assert CallerInv(s, s.holder.value);
    }
  }

  /** No caller reads the variable before it is set: the lookup never returns nothing,
      and while some caller waits for the lock or holds it, some caller can move. */
  lemma LookupNeverStalls(callers: nat, schedule: seq<nat>, t: nat)
    requires t < callers
    ensures var s := Run(Initial(callers), schedule);
            !s.callers[t].Got? ==>
              exists u | 0 <= u < callers :: !s.callers[u].Got? && Step(s, u) != s
  {
    RunKeepsInv(Initial(callers), schedule);
    var s := Run(Initial(callers), schedule);
    assert CallerInv(s, t);
    if !s.callers[t].Got? {
      var u := if s.callers[t].Waiting? && s.holder.Some? then s.holder.value else t;
      assert CallerInv(s, u);
      assert Step(s, u) != s;
    }
  }
}
