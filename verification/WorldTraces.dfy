/** What the runs of a thread have in common over every history: suspended and resumed runs,
    restarts and repeated resumptions included. */
module WorldTraces {
  import opened Prelude
  import opened Pipeline
  import opened PipelineProofs
  import opened World
  import opened WorldSafety
  import CostGuard
  import PipelineBounds
  import PipelineProducer
  import WorldReviews

  // ------------------------------------------------------------------ counting

  /** The calls of a thread, over all its segments. */
  function CallsOf(log: seq<Record>, t: string): nat {
    if log == [] then 0
    else CallsOf(log[..|log| - 1], t) + if log[|log| - 1].thread == t then CallIn(log[|log| - 1].event) else 0
  }

  function CallIn(e: Event): nat {
    if e.Called? then 1 else 0
  }

  function AttemptsOf(log: seq<Record>, t: string): nat {
    if log == [] then 0
    else AttemptsOf(log[..|log| - 1], t)
         + if log[|log| - 1].thread == t then AttemptsIn(log[|log| - 1].event) else 0
  }

  function AttemptsIn(e: Event): nat {
    if e.Called? then e.attempts else 0
  }

  lemma OneMoreRecord(log: seq<Record>, e: Record, t: string)
    ensures CallsOf(log + [e], t) == CallsOf(log, t) + if e.thread == t then CallIn(e.event) else 0
    ensures AttemptsOf(log + [e], t) == AttemptsOf(log, t) + if e.thread == t then AttemptsIn(e.event) else 0
  {
    assert (log + [e])[..|log|] == log;
  }

  lemma OneEvent(e: Event)
    ensures PipelineBounds.Calls([e]) == CallIn(e) && PipelineBounds.Attempts([e]) == AttemptsIn(e)
  {
    assert [e][1..] == [];
  }

  lemma OneMoreEvent(log: seq<Record>, u: string, events: seq<Event>, e: Event, t: string)
    ensures CallsOf(log + Tag(u, events + [e]), t)
         == CallsOf(log + Tag(u, events), t) + if u == t then CallIn(e) else 0
    ensures AttemptsOf(log + Tag(u, events + [e]), t)
         == AttemptsOf(log + Tag(u, events), t) + if u == t then AttemptsIn(e) else 0
  {
    TagAppend(u, events, e);
    OneMoreRecord(log + Tag(u, events), Record(u, e), t);
    assert log + Tag(u, events + [e]) == (log + Tag(u, events)) + [Record(u, e)];
  }

  lemma {:induction false} CountsOfTag(log: seq<Record>, u: string, events: seq<Event>, t: string)
    ensures CallsOf(log + Tag(u, events), t)
         == CallsOf(log, t) + if u == t then PipelineBounds.Calls(events) else 0
    ensures AttemptsOf(log + Tag(u, events), t)
         == AttemptsOf(log, t) + if u == t then PipelineBounds.Attempts(events) else 0
    decreases |events|
  {
    if events == [] {
      assert log + Tag(u, events) == log;
    } else {
      var init, last := events[..|events| - 1], events[|events| - 1];
      assert events == init + [last];
      CountsOfTag(log, u, init, t);
      OneMoreEvent(log, u, init, last, t);
      PipelineBounds.CountsAdd(init, [last]);
      OneEvent(last);
    }
  }

  lemma {:induction false} UnmentionedHasNoCalls(log: seq<Record>, t: string)
    requires forall k | 0 <= k < |log| :: log[k].thread != t
    ensures CallsOf(log, t) == 0 && AttemptsOf(log, t) == 0
  {
    if log != [] {
      UnmentionedHasNoCalls(log[..|log| - 1], t);
    }
  }

  // ------------------------------------------- a run that may call is on its own

  /** A run that may still call is the only one of its thread, and nothing is parked for
      the thread. */
  ghost predicate Alone(w: World) {
    && (forall i | 0 <= i < |w.runs| :: w.runs[i].thread in w.used)
    && (forall t | t in w.parked :: t in w.used && w.parked[t].thread == t)
    && (forall k | 0 <= k < |w.log| :: w.log[k].thread in w.used)
    && (forall i, j | 0 <= i < |w.runs| && 0 <= j < |w.runs| && i != j && WorldReviews.Early(w.runs[i]) ::
          w.runs[i].thread != w.runs[j].thread)
    && (forall i | 0 <= i < |w.runs| && WorldReviews.Early(w.runs[i]) :: w.runs[i].thread !in w.parked)
  }

  /** The calls made and those still open to a run are five at most, and what the calls
      have brought is as the producers promise. */
  ghost predicate Tallied(h: Host, log: seq<Record>, r: Run) {
    && RunInv(r)
    && CallsOf(log, r.thread) + PipelineBounds.CallsLeft(r.phase) <= 5
    && PipelineProducer.Tally(h, r, CallsOf(log, r.thread))
  }

  ghost predicate AllTallied(h: Host, w: World) {
    && (forall i | 0 <= i < |w.runs| :: Tallied(h, w.log, w.runs[i]))
    && (forall t | t in w.parked :: w.parked[t].phase.Suspended? && Tallied(h, w.log, w.parked[t]))
  }

  ghost predicate FewCalls(log: seq<Record>, t: string) {
    CallsOf(log, t) <= 5 && AttemptsOf(log, t) <= 2 * CallsOf(log, t)
  }

  ghost predicate TraceInv(h: Host, w: World) {
    Alone(w) && AllTallied(h, w) && forall t :: FewCalls(w.log, t)
  }

  // -------------------------------------------------------------- preservation

  lemma StepStaysTallied(h: Host, log: seq<Record>, r: Run, g: CostGuard.GuardState, i: Input)
    requires Tallied(h, log, r) && FewCalls(log, r.thread)
    ensures var o := Step(h, r, g, i);
            var log' := log + Tag(r.thread, o.events);
            && o.run.thread == r.thread && Tallied(h, log', o.run) && FewCalls(log', r.thread)
            && (WorldReviews.Early(o.run) ==> WorldReviews.Early(r))
            && (!WorldReviews.Early(r) ==> PipelineBounds.Calls(o.events) == 0)
  {
    var o := Step(h, r, g, i);
    WorldReviews.StepKeepsThread(h, r, g, i);
    StepKeepsInv(h, r, g, i);
    PipelineBounds.StepEventsHold(h, r, g, i);
    PipelineProducer.StepTally(h, r, g, i, CallsOf(log, r.thread));
    CountsOfTag(log, r.thread, o.events, r.thread);
  }

  /** Another run's tally stays, if it is of another thread or nothing was called. */
  lemma OthersStayTallied(h: Host, log: seq<Record>, u: string, events: seq<Event>, r: Run)
    requires Tallied(h, log, r) && (r.thread != u || PipelineBounds.Calls(events) == 0)
    ensures Tallied(h, log + Tag(u, events), r)
  {
    CountsOfTag(log, u, events, r.thread);
  }

  lemma OthersStayFew(log: seq<Record>, u: string, events: seq<Event>, t: string)
    requires FewCalls(log, t) && t != u
    ensures FewCalls(log + Tag(u, events), t)
  {
    CountsOfTag(log, u, events, t);
  }

  /** A step of one of the runs, as far as the invariant looks at it. */
  ghost predicate Moves(durable: bool, w: World, w': World, index: nat, o: Stepped)
    requires index < |w.runs|
  {
    && w'.runs == w.runs[index := o.run] && w'.used == w.used
    && w'.parked == Parked(durable, w.parked, w.runs[index], o.run)
    && w'.log == w.log + Tag(w.runs[index].thread, o.events)
    && o.run.thread == w.runs[index].thread
  }

  lemma AdvanceStaysAlone(durable: bool, w: World, w': World, index: nat, o: Stepped)
    requires Alone(w) && index < |w.runs| && Moves(durable, w, w', index, o)
    requires WorldReviews.Early(o.run) ==> WorldReviews.Early(w.runs[index])
    requires o.run.phase.Suspended? && w.runs[index].phase.Active() ==> !WorldReviews.Early(w.runs[index])
    ensures Alone(w')
  {
  }

  lemma OnlyGateSuspends(h: Host, r: Run, g: CostGuard.GuardState, i: Input)
    requires PipelineBounds.RetryNode(r) && r.phase.Active() && Step(h, r, g, i).run.phase.Suspended?
    ensures r.phase == At(SecurityGate)
  {
    PipelineBounds.StepSettles(h, r, g, i);
    PipelineBounds.StepHasShape(h, r, g, i);
    SettlesSuspended(r, PipelineBounds.StepRun(h, r, g, i));
  }

  lemma SettlesSuspended(r: Run, n: NodeRun)
    requires r.phase.Active() && PipelineBounds.Shape(r.phase, n) && Settle(r, r.phase.node, n).run.phase.Suspended?
    ensures n.end.Interrupt?
  {
  }

  lemma AdvanceStaysTallied(h: Host, durable: bool, w: World, w': World, index: nat, o: Stepped)
    requires Alone(w) && AllTallied(h, w) && index < |w.runs| && Moves(durable, w, w', index, o)
    requires Tallied(h, w'.log, o.run)
    requires !WorldReviews.Early(w.runs[index]) ==> PipelineBounds.Calls(o.events) == 0
    ensures AllTallied(h, w')
  {
    var u := w.runs[index].thread;
    forall i | 0 <= i < |w'.runs|
      ensures Tallied(h, w'.log, w'.runs[i])
    {
      if i != index {
        OthersStayTallied(h, w.log, u, o.events, w.runs[i]);
      }
    }
    forall t | t in w'.parked
      ensures w'.parked[t].phase.Suspended? && Tallied(h, w'.log, w'.parked[t])
    {
      if w'.parked[t] != o.run {
        OthersStayTallied(h, w.log, u, o.events, w.parked[t]);
      }
    }
  }

  lemma AdvanceKeepsTraceInv(h: Host, durable: bool, w: World, index: nat, input: Input)
    requires TraceInv(h, w)
    ensures TraceInv(h, Act(h, durable, w, Advance(index, input)))
  {
    if index < |w.runs| {
      var r := w.runs[index];
      var o := Step(h, r, w.guard, input);
      var w' := Act(h, durable, w, Advance(index, input));
      StepStaysTallied(h, w.log, r, w.guard, input);
      if r.phase.Active() && o.run.phase.Suspended? {
        OnlyGateSuspends(h, r, w.guard, input);
      }
      AdvanceStaysAlone(durable, w, w', index, o);
      AdvanceStaysTallied(h, durable, w, w', index, o);
      forall t
        ensures FewCalls(w'.log, t)
      {
        if t != r.thread {
          OthersStayFew(w.log, r.thread, o.events, t);
        }
      }
    }
  }

  lemma BeginKeepsTraceInv(h: Host, durable: bool, w: World, thread: string, logPath: string,
                           traceId: Option<string>)
    requires TraceInv(h, w)
    ensures TraceInv(h, Act(h, durable, w, Begin(thread, logPath, traceId)))
  {
    if thread !in w.used {
      StartIsInv(thread, logPath, traceId);
      UnmentionedHasNoCalls(w.log, thread);
    }
  }

  lemma ResumptionStaysTallied(h: Host, w: World, thread: string)
    requires TraceInv(h, w) && thread in w.used
    ensures TraceInv(h, w.(log := w.log + [Record(thread, Resumed)]))
  {
    var w' := w.(log := w.log + [Record(thread, Resumed)]);
    forall t
      ensures CallsOf(w'.log, t) == CallsOf(w.log, t) && FewCalls(w'.log, t)
    {
      OneMoreRecord(w.log, Record(thread, Resumed), t);
      assert FewCalls(w.log, t);
    }
  }

  lemma LateRunJoins(h: Host, w: World, r: Run)
    requires TraceInv(h, w) && Tallied(h, w.log, r) && !WorldReviews.Early(r) && r.thread in w.parked
    ensures TraceInv(h, w.(runs := w.runs + [r]))
  {
  }

  lemma ApproveKeepsTraceInv(h: Host, durable: bool, w: World, thread: string)
    requires TraceInv(h, w)
    ensures TraceInv(h, Act(h, durable, w, Approve(thread)))
  {
    if thread in w.parked {
      var w' := w.(log := w.log + [Record(thread, Resumed)]);
      ResumptionStaysTallied(h, w, thread);
      ResumeKeepsInv(w.parked[thread]);
      PipelineProducer.ResumeKeepsTally(h, w.parked[thread], CallsOf(w'.log, thread));
      LateRunJoins(h, w', Resume(w.parked[thread]));
    }
  }

  lemma {:induction false} HistoryKeepsTraceInv(h: Host, durable: bool, w: World, actions: seq<Action>)
    requires TraceInv(h, w)
    ensures TraceInv(h, History(h, durable, w, actions))
    decreases |actions|
  {
    if actions != [] {
      match actions[0] {
        case Begin(thread, logPath, traceId) => BeginKeepsTraceInv(h, durable, w, thread, logPath, traceId);
        case Advance(index, input) => AdvanceKeepsTraceInv(h, durable, w, index, input);
        case Restart(_) =>
        case Approve(thread) => ApproveKeepsTraceInv(h, durable, w, thread);
      }
      HistoryKeepsTraceInv(h, durable, Act(h, durable, w, actions[0]), actions[1..]);
    }
  }

  lemma InitialTraceInv(h: Host, g: CostGuard.GuardState)
    ensures TraceInv(h, Initial(g))
  {
  }

  // ------------------------------------------------------------ main results

  /** Every run of every history, in its first segment or resumed, and every suspended one
      in the store takes one of the shapes. */
  lemma EveryRunTakesShape(h: Host, durable: bool, g: CostGuard.GuardState, actions: seq<Action>)
    ensures var w := History(h, durable, Initial(g), actions);
            && (forall i | 0 <= i < |w.runs| :: TakesShape(w.runs[i]))
            && (forall t | t in w.parked :: TakesShape(w.parked[t]))
  {
    InitialTraceInv(h, g);
    HistoryKeepsTraceInv(h, durable, Initial(g), actions);
    var w := History(h, durable, Initial(g), actions);
    forall i | 0 <= i < |w.runs|
      ensures TakesShape(w.runs[i])
    {
      assert Tallied(h, w.log, w.runs[i]);
      InvTakesShape(w.runs[i]);
    }
    forall t | t in w.parked
      ensures TakesShape(w.parked[t])
    {
      assert Tallied(h, w.log, w.parked[t]);
      InvTakesShape(w.parked[t]);
    }
  }

  /** No thread ever costs more than five calls and ten provider attempts, all its segments
      together, however often it is resumed and the process restarted. */
  lemma FiveCallsPerThread(h: Host, durable: bool, g: CostGuard.GuardState, actions: seq<Action>, t: string)
    ensures var log := History(h, durable, Initial(g), actions).log;
            CallsOf(log, t) <= 5 && AttemptsOf(log, t) <= 10
  {
    InitialTraceInv(h, g);
    HistoryKeepsTraceInv(h, durable, Initial(g), actions);
    assert FewCalls(History(h, durable, Initial(g), actions).log, t);
  }

  /** Every run that is suspended or has reported, after a resumption too, keeps the
      producers' contract with the calls of its thread. */
  lemma EveryRunKeepsContract(h: Host, durable: bool, g: CostGuard.GuardState, actions: seq<Action>, i: nat)
    requires i < |History(h, durable, Initial(g), actions).runs|
    ensures var w := History(h, durable, Initial(g), actions);
            PipelineProducer.KeepsContract(h, w.runs[i], CallsOf(w.log, w.runs[i].thread))
  {
    InitialTraceInv(h, g);
    HistoryKeepsTraceInv(h, durable, Initial(g), actions);
    var w := History(h, durable, Initial(g), actions);
    assert Tallied(h, w.log, w.runs[i]);
    PipelineProducer.TallyKeepsContract(h, w.runs[i], CallsOf(w.log, w.runs[i].thread));
  }
}
