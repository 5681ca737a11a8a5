/** A thread is reviewed at most once, so "a verdict" in the safety claim is "the verdict". */
module WorldReviews {
  import opened Prelude
  import opened Pipeline
  import opened PipelineProofs
  import opened World
  import opened WorldSafety
  import CostGuard
  import PipelineBounds
  import Reviewer

  ghost predicate OneReviewEach(log: seq<Record>) {
    forall j, k | 0 <= j < k < |log| ::
      log[j].event.Reviewed? && log[k].event.Reviewed? ==> log[j].thread != log[k].thread
  }

  ghost predicate NoReviewOf(log: seq<Record>, t: string) {
    forall k | 0 <= k < |log| :: log[k].thread == t ==> !log[k].event.Reviewed?
  }

  /** A run that may still call a model has not been reviewed yet. */
  predicate Early(r: Run) {
    PipelineBounds.CallsLeft(r.phase) > 0
  }

  ghost predicate ReviewInv(w: World) {
    && OneReviewEach(w.log)
    && (forall k | 0 <= k < |w.log| :: w.log[k].thread in w.used)
    && (forall i | 0 <= i < |w.runs| :: w.runs[i].thread in w.used && RunInv(w.runs[i]))
    && (forall t | t in w.parked :: w.parked[t].thread == t && t in w.used
                                 && w.parked[t].phase.Suspended? && RunInv(w.parked[t]))
    && (forall i | 0 <= i < |w.runs| && Early(w.runs[i]) :: NoReviewOf(w.log, w.runs[i].thread))
    && (forall i, j | 0 <= i < j < |w.runs| && Early(w.runs[i]) && Early(w.runs[j]) ::
          w.runs[i].thread != w.runs[j].thread)
  }

  predicate NoReview(events: seq<Event>) {
    forall k | 0 <= k < |events| :: !events[k].Reviewed?
  }

  lemma StepKeepsThread(h: Host, r: Run, g: CostGuard.GuardState, i: Input)
    ensures Step(h, r, g, i).run.thread == r.thread
  {
  }

  lemma OnlyReviewerReviews(h: Host, r: Run, g: CostGuard.GuardState, i: Input)
    requires PipelineBounds.RetryNode(r) && r.phase != At(SecurityReviewer)
    ensures NoReview(Step(h, r, g, i).events)
  {
    if r.phase == At(SecurityGate) {
      GateStep(h, r, g, i);
    } else if r.phase == At(Verification) {
      VerifyStep(h, r, g, i);
    } else if Calling(r.phase) {
      CallingStep(h, r, g, i);
    } else if Plain(r.phase) {
      OtherStep(h, r, g, i);
    }
  }

  /** The reviewer's step holds at most one review, its last event, and ends the calls. */
  lemma ReviewerReviewsOnce(h: Host, r: Run, g: CostGuard.GuardState, i: Input)
    requires r.phase == At(SecurityReviewer) && !r.state.costExhausted
    ensures var o := Step(h, r, g, i);
            && !Early(o.run)
            && (NoReview(o.events) || NoReview(o.events[..|o.events| - 1]))
  {
    var v := ReviewStep(h, r, g, i);
    PipelineBounds.StepEventsHold(h, r, g, i);
    ReviewerMoves(h, r, g, i);
    var o := Step(h, r, g, i);
    if o.run.phase == At(SecurityGate) {
      var calls := CallEvents(Complete(g, r.state.traceId, i));
      CallEventsNeutral(Complete(g, r.state.traceId, i));
      assert o.events[..|o.events| - 1] == calls;
    }
  }

  lemma ReviewerMoves(h: Host, r: Run, g: CostGuard.GuardState, i: Input)
    requires r.phase == At(SecurityReviewer)
    ensures !Early(Step(h, r, g, i).run)
  {
  }

  /** The part of the invariant that speaks of one run. */
  ghost predicate RunReviewInv(log: seq<Record>, r: Run) {
    RunInv(r) && (Early(r) ==> NoReviewOf(log, r.thread))
  }

  lemma StepKeepsOneReview(h: Host, log: seq<Record>, r: Run, g: CostGuard.GuardState, i: Input)
    requires OneReviewEach(log) && RunReviewInv(log, r)
    ensures var o := Step(h, r, g, i);
            var log' := log + Tag(r.thread, o.events);
            && OneReviewEach(log') && RunReviewInv(log', o.run) && o.run.thread == r.thread
            && (Early(o.run) ==> Early(r))
  {
    var o := Step(h, r, g, i);
    var log' := log + Tag(r.thread, o.events);
    StepKeepsThread(h, r, g, i);
    StepKeepsInv(h, r, g, i);
    PipelineBounds.StepEventsHold(h, r, g, i);
    if r.phase == At(SecurityReviewer) {
      ReviewerReviewsOnce(h, r, g, i);
      assert Early(r);
      AtMostOneMore(log, r.thread, o.events);
    } else {
      OnlyReviewerReviews(h, r, g, i);
      NoneMore(log, r.thread, o.events);
    }
  }

  lemma AtMostOneMore(log: seq<Record>, t: string, events: seq<Event>)
    requires OneReviewEach(log) && NoReviewOf(log, t)
    requires NoReview(events) || NoReview(events[..|events| - 1])
    ensures OneReviewEach(log + Tag(t, events))
  {
    var log' := log + Tag(t, events);
    forall j, k | 0 <= j < k < |log'|
      ensures log'[j].event.Reviewed? && log'[k].event.Reviewed? ==> log'[j].thread != log'[k].thread
    {
      if j >= |log| {
        assert events[..|events| - 1][j - |log|] == events[j - |log|];
      }
    }
  }

  lemma NoneMore(log: seq<Record>, t: string, events: seq<Event>)
    requires OneReviewEach(log) && NoReview(events)
    ensures OneReviewEach(log + Tag(t, events))
    ensures forall u | NoReviewOf(log, u) :: NoReviewOf(log + Tag(t, events), u)
  {
  }

  /** What other threads have not said stays unsaid. */
  lemma OtherThreads(log: seq<Record>, t: string, events: seq<Event>, u: string)
    requires NoReviewOf(log, u) && u != t
    ensures NoReviewOf(log + Tag(t, events), u)
  {
  }

  lemma AdvanceKeepsReviews(h: Host, durable: bool, w: World, index: nat, input: Input)
    requires ReviewInv(w) && index < |w.runs|
    ensures ReviewInv(Act(h, durable, w, Advance(index, input)))
  {
    var r := w.runs[index];
    var o := Step(h, r, w.guard, input);
    var w' := Act(h, durable, w, Advance(index, input));
    StepKeepsOneReview(h, w.log, r, w.guard, input);
    forall i | 0 <= i < |w'.runs| && Early(w'.runs[i])
      ensures NoReviewOf(w'.log, w'.runs[i].thread)
    {
      if i != index {
        if Early(r) {
          OtherThreads(w.log, r.thread, o.events, w.runs[i].thread);
        } else {
          LateRunReviewsNothing(h, r, w.guard, input);
          NoneMore(w.log, r.thread, o.events);
        }
      }
    }
  }

  lemma LateRunReviewsNothing(h: Host, r: Run, g: CostGuard.GuardState, i: Input)
    requires !Early(r)
    ensures NoReview(Step(h, r, g, i).events)
  {
    assert !Calling(r.phase);
    OnlyReviewerReviews(h, r, g, i);
  }

  lemma BeginKeepsReviews(h: Host, durable: bool, w: World, thread: string, logPath: string,
                          traceId: Option<string>)
    requires ReviewInv(w)
    ensures ReviewInv(Act(h, durable, w, Begin(thread, logPath, traceId)))
  {
    StartIsInv(thread, logPath, traceId);
  }

  lemma ResumptionReviewsNothing(w: World, thread: string)
    requires ReviewInv(w) && thread in w.used
    ensures ReviewInv(w.(log := w.log + [Record(thread, Resumed)]))
  {
  }

  lemma LateRunJoins(w: World, r: Run)
    requires ReviewInv(w) && r.thread in w.used && RunInv(r) && !Early(r)
    ensures ReviewInv(w.(runs := w.runs + [r]))
  {
  }

  lemma ApproveKeepsReviews(h: Host, durable: bool, w: World, thread: string)
    requires ReviewInv(w)
    ensures ReviewInv(Act(h, durable, w, Approve(thread)))
  {
    if thread in w.parked {
      ResumeKeepsInv(w.parked[thread]);
      ResumptionReviewsNothing(w, thread);
      LateRunJoins(w.(log := w.log + [Record(thread, Resumed)]), Resume(w.parked[thread]));
    }
  }

  lemma ActKeepsReviews(h: Host, durable: bool, w: World, a: Action)
    requires ReviewInv(w)
    ensures ReviewInv(Act(h, durable, w, a))
  {
    match a
    case Begin(thread, logPath, traceId) => BeginKeepsReviews(h, durable, w, thread, logPath, traceId);
    case Advance(index, input) =>
      if index < |w.runs| {
        AdvanceKeepsReviews(h, durable, w, index, input);
      }
    case Restart(_) =>
    case Approve(thread) => ApproveKeepsReviews(h, durable, w, thread);
  }

  lemma {:induction false} HistoryKeepsReviews(h: Host, durable: bool, w: World, actions: seq<Action>)
    requires ReviewInv(w)
    ensures ReviewInv(History(h, durable, w, actions))
    decreases |actions|
  {
    if actions != [] {
      ActKeepsReviews(h, durable, w, actions[0]);
      HistoryKeepsReviews(h, durable, Act(h, durable, w, actions[0]), actions[1..]);
    }
  }

  /** Every review a thread ever gets, before or after, is the one review of the artifact
      that was verified; it came first, and if it said HIGH_RISK the thread was suspended
      and resumed in between. */
  lemma VerifiedIsTheReviewed(h: Host, durable: bool, g: CostGuard.GuardState, actions: seq<Action>,
                              j: nat, k: nat)
    requires var log := History(h, durable, Initial(g), actions).log;
             && j < |log| && k < |log| && log[j].thread == log[k].thread
             && log[j].event.Reviewed? && log[k].event.Verified?
    ensures var log := History(h, durable, Initial(g), actions).log;
            && j < k
            && log[k].event.artifact == log[j].event.artifact
            && (log[j].event.verdict == Reviewer.HighRisk ==>
                  Cleared(log[..k], log[k].thread, log[k].event.artifact, Reviewer.HighRisk))
  {
    var log := History(h, durable, Initial(g), actions).log;
    VerifiedOnlyAfterReview(h, durable, g, actions, k);
    HistoryKeepsReviews(h, durable, Initial(g), actions);
    var a, t := log[k].event.artifact, log[k].thread;
    var v :| HasReview(log[..k], t, a, v) && (v == Reviewer.HighRisk ==> Cleared(log[..k], t, a, v));
    var i :| 0 <= i < k && log[..k][i] == Record(t, Reviewed(a, v));
    assert log[i] == Record(t, Reviewed(a, v));
    assert i == j;
  }
}
