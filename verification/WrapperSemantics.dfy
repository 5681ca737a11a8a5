/** What wrapping a fragment does to its meaning. A fragment is a block of a small
    statement language; an effect is an action appended to the history, and every
    condition is an arbitrary function of that history. */
module WrapperSemantics {

  type Action = nat

  type History = seq<Action>

  /** A returned object is plain unless it has send and throw. Of those that have, a
      generator runs what is left of its body when it is drained, and a coroutine cannot
      be iterated over at all. */
  datatype Value = Plain | Generator(body: Block) | Coroutine

  datatype Stmt =
    | Act(action: Action)
    | IfElse(cond: History -> bool, thn: Block, els: Block)
    | While(cond: History -> bool, body: Block)
    | Return(value: Value)
    | Yield
    | Fail

  datatype Block = Nil | Cons(head: Stmt, tail: Block)

  /** How a run ends: normally, by an uncaught exception, or not within the given
      number of steps. */
  datatype Result = Exited(history: History) | Died(history: History) | Unfinished

  // ------------------------------------- what the fragment is meant to do

  datatype Outcome =
    | Normal(history: History)
    | Returned(history: History, value: Value)
    | Raised(history: History)
    | OutOfFuel

  /** Statements in order up to the first executed return; a yield does nothing. `fuel`
      bounds the loop iterations. */
  function Meaning(b: Block, h: History, fuel: nat): Outcome
    decreases fuel, b
  {
    match b
    case Nil => Normal(h)
    case Cons(Act(a), rest) => Meaning(rest, h + [a], fuel)
    case Cons(Yield, rest) => Meaning(rest, h, fuel)
    case Cons(Return(v), rest) => Returned(h, v)
    case Cons(Fail, rest) => Raised(h)
    case Cons(IfElse(c, thn, els), rest) =>
      var first := if c(h) then Meaning(thn, h, fuel) else Meaning(els, h, fuel);
      if first.Normal? then Meaning(rest, first.history, fuel) else first
    case Cons(While(c, body), rest) =>
      if !c(h) then Meaning(rest, h, fuel)
      else if fuel == 0 then OutOfFuel
      else
        var first := Meaning(body, h, fuel - 1);
        if first.Normal? then Meaning(b, first.history, fuel - 1) else first
  }

  /** The value a body returns is of no consequence. */
  function Plainly(o: Outcome): Result {
    match o
    case Normal(h) => Exited(h)
    case Returned(h, _) => Exited(h)
    case Raised(h) => Died(h)
    case OutOfFuel => Unfinished
  }

  /** The fragment as a script of its own. */
  function Intended(b: Block, fuel: nat): Result {
    Plainly(Meaning(b, [], fuel))
  }

  // ------------------------------------------- what the wrapped form does

  /** The blocks still to run in a suspended or running function, innermost first. */
  datatype Stack = Empty | Frame(block: Block, below: Stack)

  datatype Micro =
    | Goes(stack: Stack, history: History)
    | Pauses(stack: Stack)
    | Finishes(value: Value)
    | Raises

  /** One machine step of a function body. */
  function MicroStep(k: Stack, h: History): Micro {
    match k
    case Empty => Finishes(Plain)
    case Frame(Nil, below) => Goes(below, h)
    case Frame(Cons(Act(a), rest), below) => Goes(Frame(rest, below), h + [a])
    case Frame(Cons(Yield, rest), below) => Pauses(Frame(rest, below))
    case Frame(Cons(Return(v), rest), below) => Finishes(v)
    case Frame(Cons(Fail, rest), below) => Raises
    case Frame(Cons(IfElse(c, thn, els), rest), below) =>
      Goes(Frame(if c(h) then thn else els, Frame(rest, below)), h)
    case Frame(Cons(While(c, body), rest), below) =>
      if c(h) then Goes(Frame(body, Frame(Cons(While(c, body), rest), below)), h)
      else Goes(Frame(rest, below), h)
  }

  /** Running a body until it pauses, ends or raises; `left` is the unused step budget. */
  datatype Leg =
    | Paused(stack: Stack, history: History, left: nat)
    | Ended(history: History, value: Value)
    | Threw(history: History)
    | Stuck

  function Next(k: Stack, h: History, steps: nat): (leg: Leg)
    ensures leg.Paused? ==> leg.left < steps
    decreases steps
  {
    if steps == 0 then Stuck
    else
      match MicroStep(k, h)
      case Goes(k', h') => Next(k', h', steps - 1)
      case Pauses(k') => Paused(k', h, steps - 1)
      case Finishes(v) => Ended(h, v)
      case Raises => Threw(h)
  }

  /** for _ in generator: pass. The generator's own return value is dropped. */
  function Drain(k: Stack, h: History, steps: nat): Result
    decreases steps
  {
    match Next(k, h, steps)
    case Paused(k', h', left) => Drain(k', h', left)
    case Ended(h', _) => Exited(h')
    case Threw(h') => Died(h')
    case Stuck => Unfinished
  }

  /** A function whose body mentions yield anywhere is a generator function. */
  predicate HasYield(b: Block) {
    match b
    case Nil => false
    case Cons(Yield, rest) => true
    case Cons(IfElse(_, thn, els), rest) => HasYield(thn) || HasYield(els) || HasYield(rest)
    case Cons(While(_, body), rest) => HasYield(body) || HasYield(rest)
    case Cons(_, rest) => HasYield(rest)
  }

  /** The drain guarded by the test for send and throw. */
  function DrainValue(v: Value, h: History, steps: nat): Result {
    match v
    case Plain => Exited(h)
    case Generator(body) => Drain(Frame(body, Empty), h, steps)
    case Coroutine => Died(h)
  }

  /** The wrapper: call the function, with a budget for the call; if the result has send
      and throw, drain it, with another budget. A generator function returns its generator
      at once, before any of its body runs. */
  function Wrapped(b: Block, call: nat, drain: nat): Result {
    if HasYield(b) then DrainValue(Generator(b), [], drain)
    else
      match Next(Frame(b, Empty), [], call)
      case Ended(h, v) => DrainValue(v, h, drain)
      case Threw(h) => Died(h)
      case Paused(_, _, _) => Unfinished
      case Stuck => Unfinished
  }

  // ---------------------------------- a machine that ignores where it pauses

  /** The last word of a body that is resumed as often as it pauses. */
  function Through(k: Stack, h: History, steps: nat): (leg: Leg)
    ensures !leg.Paused?
    decreases steps
  {
    if steps == 0 then Stuck
    else
      match MicroStep(k, h)
      case Goes(k', h') => Through(k', h', steps - 1)
      case Pauses(k') => Through(k', h, steps - 1)
      case Finishes(v) => Ended(h, v)
      case Raises => Threw(h)
  }

  function AsResult(leg: Leg): Result
    requires !leg.Paused?
  {
    match leg
    case Ended(h, _) => Exited(h)
    case Threw(h) => Died(h)
    case Stuck => Unfinished
  }

  /** Draining is running through. */
  lemma {:induction false} DrainIsThrough(k: Stack, h: History, steps: nat)
    ensures Drain(k, h, steps) == AsResult(Through(k, h, steps))
    decreases steps
  {
    if steps > 0 {
      match MicroStep(k, h)
      case Goes(k', h') =>
        DrainIsThrough(k', h', steps - 1);
        assert Next(k, h, steps) == Next(k', h', steps - 1);
      case Pauses(k') =>
        DrainIsThrough(k', h, steps - 1);
      case Finishes(v) =>
      case Raises =>
    }
  }

  predicate StackHasYield(k: Stack) {
    match k
    case Empty => false
    case Frame(b, below) => HasYield(b) || StackHasYield(below)
  }

  /** A body without yield never pauses. */
  lemma {:induction false} NoYieldNeverPauses(k: Stack, h: History, steps: nat)
    requires !StackHasYield(k)
    ensures Next(k, h, steps) == Through(k, h, steps)
    decreases steps
  {
    if steps > 0 {
      match MicroStep(k, h)
      case Goes(k', h') => NoYieldNeverPauses(k', h', steps - 1);
      case Pauses(k') =>
      case Finishes(v) =>
      case Raises =>
    }
  }

  // ------------------------------------------------ the machine does the meaning

  /** Enough steps for the block on top: afterwards the machine stands where the
      meaning of the block says, with `spare` steps to go. */
  lemma {:induction false} MachineFollows(b: Block, below: Stack, h: History, fuel: nat, spare: nat)
    returns (steps: nat)
    requires !Meaning(b, h, fuel).OutOfFuel?
    ensures var o := Meaning(b, h, fuel);
            Through(Frame(b, below), h, steps) ==
              match o {
                case Normal(h') => Through(below, h', spare)
                case Returned(h', v) => Ended(h', v)
                case Raised(h') => Threw(h')
                case OutOfFuel => Stuck
              }
    decreases fuel, b
  {
    match b
    case Nil => steps := spare + 1;
    case Cons(Act(a), rest) =>
      steps := MachineFollows(rest, below, h + [a], fuel, spare);
      steps := steps + 1;
    case Cons(Yield, rest) =>
      steps := MachineFollows(rest, below, h, fuel, spare);
      steps := steps + 1;
    case Cons(Return(v), rest) => steps := 1;
    case Cons(Fail, rest) => steps := 1;
    case Cons(IfElse(c, thn, els), rest) =>
      var branch := if c(h) then thn else els;
      var later := 0;
      var first := Meaning(branch, h, fuel);
      if first.Normal? {
        later := MachineFollows(rest, below, first.history, fuel, spare);
      }
      steps := MachineFollows(branch, Frame(rest, below), h, fuel, later);
      steps := steps + 1;
    case Cons(While(c, body), rest) =>
      if !c(h) {
        steps := MachineFollows(rest, below, h, fuel, spare);
      } else {
        var later := 0;
        var first := Meaning(body, h, fuel - 1);
        if first.Normal? {
          later := MachineFollows(b, below, first.history, fuel - 1, spare);
        }
        steps := MachineFollows(body, Frame(b, below), h, fuel - 1, later);
      }
      steps := steps + 1;
  }

  // --------------------------------------------- the meaning does the machine

  lemma {:induction false} MoreFuelSameMeaning(b: Block, h: History, fuel: nat, more: nat)
    requires !Meaning(b, h, fuel).OutOfFuel? && fuel <= more
    ensures Meaning(b, h, more) == Meaning(b, h, fuel)
    decreases fuel, b
  {
    match b
    case Nil =>
    case Cons(Act(a), rest) => MoreFuelSameMeaning(rest, h + [a], fuel, more);
    case Cons(Yield, rest) => MoreFuelSameMeaning(rest, h, fuel, more);
    case Cons(Return(v), rest) =>
    case Cons(Fail, rest) =>
    case Cons(IfElse(c, thn, els), rest) =>
      var branch := if c(h) then thn else els;
      MoreFuelSameMeaning(branch, h, fuel, more);
      var first := Meaning(branch, h, fuel);
      if first.Normal? {
        MoreFuelSameMeaning(rest, first.history, fuel, more);
      }
    case Cons(While(c, body), rest) =>
      if !c(h) {
        MoreFuelSameMeaning(rest, h, fuel, more);
      } else {
        MoreFuelSameMeaning(body, h, fuel - 1, more - 1);
        var first := Meaning(body, h, fuel - 1);
        if first.Normal? {
          MoreFuelSameMeaning(b, first.history, fuel - 1, more - 1);
        }
      }
  }

  /** If the machine ends within `steps`, then so does the meaning of the block on top
      with that much fuel, and what is below is left fewer steps to end in. */
  lemma {:induction false} MeaningFollows(b: Block, below: Stack, h: History, steps: nat)
    returns (left: nat)
    requires !Through(Frame(b, below), h, steps).Stuck?
    ensures var o := Meaning(b, h, steps);
            && !o.OutOfFuel?
            && (o.Normal? ==> left < steps && !Through(below, o.history, left).Stuck?)
    decreases steps
  {
    left := 0;
    match b
    case Nil => left := steps - 1;
    case Cons(Act(a), rest) =>
      left := MeaningFollows(rest, below, h + [a], steps - 1);
      MoreFuelSameMeaning(rest, h + [a], steps - 1, steps);
    case Cons(Yield, rest) =>
      left := MeaningFollows(rest, below, h, steps - 1);
      MoreFuelSameMeaning(rest, h, steps - 1, steps);
    case Cons(Return(v), rest) =>
    case Cons(Fail, rest) =>
    case Cons(IfElse(c, thn, els), rest) =>
      var branch := if c(h) then thn else els;
      left := MeaningFollows(branch, Frame(rest, below), h, steps - 1);
      MoreFuelSameMeaning(branch, h, steps - 1, steps);
      var first := Meaning(branch, h, steps - 1);
      if first.Normal? {
        var mid := left;
        left := MeaningFollows(rest, below, first.history, mid);
        MoreFuelSameMeaning(rest, first.history, mid, steps);
      }
    case Cons(While(c, body), rest) =>
      if !c(h) {
        left := MeaningFollows(rest, below, h, steps - 1);
        MoreFuelSameMeaning(rest, h, steps - 1, steps);
      } else {
        left := MeaningFollows(body, Frame(b, below), h, steps - 1);
        var first := Meaning(body, h, steps - 1);
        if first.Normal? {
          var mid := left;
          left := MeaningFollows(b, below, first.history, mid);
          MoreFuelSameMeaning(b, first.history, mid, steps - 1);
        }
      }
  }

  /** A machine that ended is not changed by a different step budget. */
  lemma {:induction false} ThroughIsStable(k: Stack, h: History, m: nat, n: nat)
    requires !Through(k, h, m).Stuck? && !Through(k, h, n).Stuck?
    ensures Through(k, h, m) == Through(k, h, n)
    decreases m
  {
    match MicroStep(k, h)
    case Goes(k', h') => ThroughIsStable(k', h', m - 1, n - 1);
    case Pauses(k') => ThroughIsStable(k', h, m - 1, n - 1);
    case Finishes(v) =>
    case Raises =>
  }

  /** How the machine's last word reads as an outcome. */
  ghost predicate SameEnd(leg: Leg, o: Outcome) {
    match leg
    case Ended(h, v) => o == Returned(h, v) || (o == Normal(h) && v == Plain)
    case Threw(h) => o == Raised(h)
    case _ => false
  }

  /** Machine and meaning of a body end alike: whichever has ended, so does the other. */
  lemma MachineEndsAlike(b: Block, h: History, steps: nat) returns (fuel: nat)
    requires !Through(Frame(b, Empty), h, steps).Stuck?
    ensures SameEnd(Through(Frame(b, Empty), h, steps), Meaning(b, h, fuel))
  {
    fuel := steps;
    var left := MeaningFollows(b, Empty, h, steps);
    var steps' := MachineFollows(b, Empty, h, fuel, 1);
    ThroughIsStable(Frame(b, Empty), h, steps, steps');
  }

  lemma MeaningEndsAlike(b: Block, h: History, fuel: nat) returns (steps: nat)
    requires !Meaning(b, h, fuel).OutOfFuel?
    ensures SameEnd(Through(Frame(b, Empty), h, steps), Meaning(b, h, fuel))
  {
    steps := MachineFollows(b, Empty, h, fuel, 1);
  }

  /** A body with enough fuel has one outcome. */
  lemma OneOutcome(b: Block, h: History, m: nat, n: nat)
    requires !Meaning(b, h, m).OutOfFuel? && !Meaning(b, h, n).OutOfFuel?
    ensures Meaning(b, h, m) == Meaning(b, h, n)
  {
    if m <= n {
      MoreFuelSameMeaning(b, h, m, n);
    } else {
      MoreFuelSameMeaning(b, h, n, m);
    }
  }

  // ------------------------------------------------------------------ draining

  ghost predicate EndsAs(b: Block, h: History, fuel: nat, r: Result) {
    r != Unfinished && Plainly(Meaning(b, h, fuel)) == r
  }

  /** Draining `v` when `h` has happened ends in `r`; nothing, if it never ends. */
  ghost predicate DrainReaches(v: Value, h: History, r: Result) {
    match v
    case Plain => r == Exited(h)
    case Generator(body) => exists fuel: nat :: EndsAs(body, h, fuel, r)
    case Coroutine => r == Died(h)
  }

  lemma DrainEnds(v: Value, h: History, steps: nat)
    requires DrainValue(v, h, steps) != Unfinished
    ensures DrainReaches(v, h, DrainValue(v, h, steps))
  {
    if v.Generator? {
      DrainIsThrough(Frame(v.body, Empty), h, steps);
      var fuel := MachineEndsAlike(v.body, h, steps);
      assert EndsAs(v.body, h, fuel, DrainValue(v, h, steps));
    }
  }

  lemma DrainIsRun(v: Value, h: History, r: Result) returns (steps: nat)
    requires DrainReaches(v, h, r)
    ensures DrainValue(v, h, steps) == r && r != Unfinished
  {
    steps := 0;
    if v.Generator? {
      var fuel: nat :| EndsAs(v.body, h, fuel, r);
      steps := MeaningEndsAlike(v.body, h, fuel);
      DrainIsThrough(Frame(v.body, Empty), h, steps);
    }
  }

  lemma DrainIsUnique(v: Value, h: History, r: Result, r': Result)
    requires DrainReaches(v, h, r) && DrainReaches(v, h, r')
    ensures r == r'
  {
    if v.Generator? {
      var m: nat :| EndsAs(v.body, h, m, r);
      var n: nat :| EndsAs(v.body, h, n, r');
      OneOutcome(v.body, h, m, n);
    }
  }

  // ------------------------------------------------------------ main results

  ghost predicate IntendedReaches(b: Block, r: Result) {
    exists fuel: nat :: r != Unfinished && Intended(b, fuel) == r
  }

  ghost predicate WrappedReaches(b: Block, r: Result) {
    r != Unfinished && exists call: nat, drain: nat :: Wrapped(b, call, drain) == r
  }

  /** The wrapped form can end in `r` by what the body comes to with this fuel. */
  ghost predicate Predicts(b: Block, fuel: nat, r: Result) {
    Observes(b, Meaning(b, [], fuel), r)
  }

  /** What an outcome of the body lets the wrapped form end in: itself, and if the body
      has no yield, what draining the returned object adds. */
  ghost predicate Observes(b: Block, o: Outcome, r: Result) {
    match o
    case Returned(h, v) => if HasYield(b) then r == Exited(h) else DrainReaches(v, h, r)
    case _ => r == Plainly(o) && r != Unfinished
  }

  lemma MeaningIsWrapped(b: Block, fuel: nat, r: Result)
    requires Predicts(b, fuel, r)
    ensures WrappedReaches(b, r)
  {
    var o := Meaning(b, [], fuel);
    var call := MeaningEndsAlike(b, [], fuel);
    if HasYield(b) {
      DrainIsThrough(Frame(b, Empty), [], call);
      assert Wrapped(b, 0, call) == r;
    } else {
      NoYieldNeverPauses(Frame(b, Empty), [], call);
      var drain := 0;
      if o.Returned? {
        drain := DrainIsRun(o.value, o.history, r);
      }
      assert Wrapped(b, call, drain) == r;
    }
  }

  lemma WrappedIsMeaning(b: Block, call: nat, drain: nat) returns (fuel: nat)
    requires Wrapped(b, call, drain) != Unfinished
    ensures Predicts(b, fuel, Wrapped(b, call, drain))
  {
    if HasYield(b) {
      DrainIsThrough(Frame(b, Empty), [], drain);
      fuel := MachineEndsAlike(b, [], drain);
    } else {
      NoYieldNeverPauses(Frame(b, Empty), [], call);
      fuel := MachineEndsAlike(b, [], call);
      var leg := Next(Frame(b, Empty), [], call);
      if leg.Ended? {
        DrainEnds(leg.value, leg.history, drain);
      }
    }
  }

  /** The wrapped form ends with a result exactly when the fragment's meaning is defined
      and the result is that meaning, followed by whatever draining the returned object
      does, raising and never ending included. */
  lemma WrappedDoesTheMeaning(b: Block, r: Result)
    ensures WrappedReaches(b, r) <==> exists fuel: nat :: Predicts(b, fuel, r)
  {
    if WrappedReaches(b, r) {
      var call: nat, drain: nat :| Wrapped(b, call, drain) == r;
      var fuel := WrappedIsMeaning(b, call, drain);
      assert Predicts(b, fuel, r);
    }
    forall fuel: nat | Predicts(b, fuel, r)
      ensures WrappedReaches(b, r)
    {
      MeaningIsWrapped(b, fuel, r);
    }
  }

  /** Draining the object does nothing that can be seen, and ends. */
  ghost predicate DrainsSilently(v: Value, h: History) {
    DrainReaches(v, h, Exited(h))
  }

  /** The one case the wrapper gets wrong: no yield, and a returned object whose drain
      does something, raises or never ends. */
  ghost predicate ReturnsLiveObject(b: Block) {
    !HasYield(b) && exists fuel: nat :: ReturnsLive(Meaning(b, [], fuel))
  }

  ghost predicate ReturnsLive(o: Outcome) {
    o.Returned? && !DrainsSilently(o.value, o.history)
  }

  /** Wrapping preserves the meaning of a fragment, divergence and uncaught exceptions
      included, exactly when it does not return a live object. */
  lemma WrappingPreservesMeaningIff(b: Block)
    ensures (forall r :: WrappedReaches(b, r) <==> IntendedReaches(b, r)) <==> !ReturnsLiveObject(b)
  {
    if ReturnsLiveObject(b) {
      LiveObjectDiffers(b);
    } else {
      forall r
        ensures WrappedReaches(b, r) <==> IntendedReaches(b, r)
      {
        SilentAgrees(b, r);
      }
    }
  }

  /** Nothing is added to a fragment that returns no live object. */
  lemma NothingAdded(b: Block, fuel: nat, r: Result)
    requires !ReturnsLiveObject(b)
    ensures Predicts(b, fuel, r) <==> r == Intended(b, fuel) && r != Unfinished
  {
    var o := Meaning(b, [], fuel);
    if o.Returned? && !HasYield(b) {
      assert DrainsSilently(o.value, o.history);
      if DrainReaches(o.value, o.history, r) {
        DrainIsUnique(o.value, o.history, r, Exited(o.history));
      }
    }
  }

  lemma SilentAgrees(b: Block, r: Result)
    requires !ReturnsLiveObject(b)
    ensures WrappedReaches(b, r) <==> IntendedReaches(b, r)
  {
    WrappedDoesTheMeaning(b, r);
    if fuel: nat :| Predicts(b, fuel, r) {
      NothingAdded(b, fuel, r);
      assert Intended(b, fuel) == r;
    }
    if IntendedReaches(b, r) {
      var fuel: nat :| Intended(b, fuel) == r;
      NothingAdded(b, fuel, r);
      assert Predicts(b, fuel, r);
    }
  }

  lemma LiveObjectDiffers(b: Block)
    requires ReturnsLiveObject(b)
    ensures exists r :: IntendedReaches(b, r) && !WrappedReaches(b, r)
  {
    var fuel: nat :| ReturnsLive(Meaning(b, [], fuel));
    var o := Meaning(b, [], fuel);
    var r := Exited(o.history);
    assert Intended(b, fuel) == r;
    WrappedDoesTheMeaning(b, r);
    forall other: nat
      ensures !Predicts(b, other, r)
    {
      if !Meaning(b, [], other).OutOfFuel? {
        OneOutcome(b, [], fuel, other);
      }
    }
    assert IntendedReaches(b, r) && !WrappedReaches(b, r);
  }

  /** A caller can see it in the text: fragments that mention yield, and fragments that
      only ever return plain values, are safe to wrap. */
  predicate ReturnsPlainOnly(b: Block) {
    match b
    case Nil => true
    case Cons(Return(v), rest) => v.Plain? && ReturnsPlainOnly(rest)
    case Cons(IfElse(_, thn, els), rest) =>
      ReturnsPlainOnly(thn) && ReturnsPlainOnly(els) && ReturnsPlainOnly(rest)
    case Cons(While(_, body), rest) => ReturnsPlainOnly(body) && ReturnsPlainOnly(rest)
    case Cons(_, rest) => ReturnsPlainOnly(rest)
  }

  lemma {:induction false} PlainReturnsPlain(b: Block, h: History, fuel: nat)
    requires ReturnsPlainOnly(b)
    ensures Meaning(b, h, fuel).Returned? ==> Meaning(b, h, fuel).value == Plain
    decreases fuel, b
  {
    match b
    case Nil =>
    case Cons(Act(a), rest) => PlainReturnsPlain(rest, h + [a], fuel);
    case Cons(Yield, rest) => PlainReturnsPlain(rest, h, fuel);
    case Cons(Return(v), rest) =>
    case Cons(Fail, rest) =>
    case Cons(IfElse(c, thn, els), rest) =>
      var branch := if c(h) then thn else els;
      PlainReturnsPlain(branch, h, fuel);
      if Meaning(branch, h, fuel).Normal? {
        PlainReturnsPlain(rest, Meaning(branch, h, fuel).history, fuel);
      }
    case Cons(While(c, body), rest) =>
      if !c(h) {
        PlainReturnsPlain(rest, h, fuel);
      } else if fuel > 0 {
        PlainReturnsPlain(body, h, fuel - 1);
        if Meaning(body, h, fuel - 1).Normal? {
          PlainReturnsPlain(b, Meaning(body, h, fuel - 1).history, fuel - 1);
        }
      }
  }

  lemma SafeToWrap(b: Block, r: Result)
    requires HasYield(b) || ReturnsPlainOnly(b)
    ensures WrappedReaches(b, r) <==> IntendedReaches(b, r)
  {
    if !HasYield(b) {
      forall fuel: nat
        ensures Meaning(b, [], fuel).Returned? ==> Meaning(b, [], fuel).value == Plain
      {
        PlainReturnsPlain(b, [], fuel);
      }
    }
    SilentAgrees(b, r);
  }

  // --------------------------------------------------- three ways to go wrong

  function Returning(v: Value): Block {
    Cons(Return(v), Nil)
  }

  /** `return v` on its own: the fragment does nothing, its wrapped form drains `v`. */
  lemma ReturningDrains(v: Value, r: Result)
    ensures IntendedReaches(Returning(v), Exited([]))
    ensures WrappedReaches(Returning(v), r) <==> DrainReaches(v, [], r)
  {
    var b := Returning(v);
    assert Intended(b, 0) == Exited([]);
    assert !HasYield(b);
    WrappedDoesTheMeaning(b, r);
    assert forall fuel: nat :: Meaning(b, [], fuel) == Returned([], v);
    if DrainReaches(v, [], r) {
      assert Predicts(b, 0, r);
    }
  }

  /** A generator with an effect: the wrapped form performs an action the fragment does
      not. */
  lemma WrappingCanAddEffects(a: Action)
    ensures var b := Returning(Generator(Cons(Act(a), Nil)));
            WrappedReaches(b, Exited([a])) && !WrappedReaches(b, Exited([]))
  {
    var v := Generator(Cons(Act(a), Nil));
    ReturningDrains(v, Exited([a]));
    ReturningDrains(v, Exited([]));
    assert EndsAs(v.body, [], 0, Exited([a])) by { assert [] + [a] == [a]; }
    if DrainReaches(v, [], Exited([])) {
      DrainIsUnique(v, [], Exited([]), Exited([a]));
    }
  }

  /** A generator that raises, and a coroutine: the wrapped form dies. */
  lemma WrappingCanRaise()
    ensures WrappedReaches(Returning(Generator(Cons(Fail, Nil))), Died([]))
    ensures WrappedReaches(Returning(Coroutine), Died([]))
  {
    var v := Generator(Cons(Fail, Nil));
    ReturningDrains(v, Died([]));
    ReturningDrains(Coroutine, Died([]));
    assert EndsAs(v.body, [], 0, Died([]));
  }

  function Forever(): Block {
    Cons(While(h => true, Cons(Yield, Nil)), Nil)
  }

  lemma {:induction false} ForeverNeverEnds(h: History, fuel: nat)
    ensures Meaning(Forever(), h, fuel).OutOfFuel?
    decreases fuel
  {
    if fuel > 0 {
      assert Meaning(Cons(Yield, Nil), h, fuel - 1) == Normal(h);
      ForeverNeverEnds(h, fuel - 1);
    }
  }

  /** A generator without end: the wrapped form never ends. */
  lemma WrappingCanHang(r: Result)
    ensures !WrappedReaches(Returning(Generator(Forever())), r)
  {
    ReturningDrains(Generator(Forever()), r);
    forall fuel: nat
      ensures Meaning(Forever(), [], fuel).OutOfFuel?
    {
      ForeverNeverEnds([], fuel);
    }
  }
}
