/** What the sandbox is ever given to run, over every history of runs, interleavings,
    restarts and resumptions. */
module WorldSafety {
  import opened Prelude
  import opened Pipeline
  import opened PipelineProofs
  import opened World
  import CostGuard
  import Normalizer
  import PipelineBounds
  import Reviewer
  import Text
  import Verifier

  // ----------------------------------------------------------------- the claim

  ghost predicate HasReview(log: seq<Record>, t: string, a: Option<string>, v: Reviewer.Verdict) {
    exists j :: 0 <= j < |log| && log[j] == Record(t, Reviewed(a, v))
  }

  /** The review, then a suspension. */
  ghost predicate PausedFor(log: seq<Record>, t: string, a: Option<string>, v: Reviewer.Verdict) {
    exists m :: 0 <= m < |log| && log[m] == Record(t, Paused) && HasReview(log[..m], t, a, v)
  }

  /** The review, then a suspension, then a resumption. */
  ghost predicate Cleared(log: seq<Record>, t: string, a: Option<string>, v: Reviewer.Verdict) {
    exists n :: 0 <= n < |log| && log[n] == Record(t, Resumed) && PausedFor(log[..n], t, a, v)
  }

  /** An artifact may be handed to the verifier once it was reviewed and, if the verdict
      was HIGH_RISK, once the thread was suspended and resumed after that. */
  ghost predicate MayVerify(log: seq<Record>, t: string, a: Option<string>) {
    exists v :: HasReview(log, t, a, v) && (v == Reviewer.HighRisk ==> Cleared(log, t, a, v))
  }

  /** The code a container ran is the accepted form of the artifact. */
  ghost predicate RanAccepted(h: Host, a: Option<string>, ran: Option<string>) {
    ran.Some? ==>
      && a.Some?
      && Normalizer.Normalize(h.compile, a.value).Normalized?
      && Normalizer.Normalize(h.compile, a.value).outcome != Normalizer.Rejected
      && ran == Some(Normalizer.Normalize(h.compile, a.value).code)
  }

  ghost predicate EntryOk(h: Host, before: seq<Record>, e: Record) {
    && (e.event.Verified? ==>
          MayVerify(before, e.thread, e.event.artifact) && RanAccepted(h, e.event.artifact, e.event.ran))
    && (e.event.Reviewed? ==>
          (Reviewer.ScanFires(h.low, e.event.artifact.GetOr("")) ==> e.event.verdict == Reviewer.HighRisk))
  }

  ghost predicate Safe(h: Host, log: seq<Record>) {
    forall k | 0 <= k < |log| :: EntryOk(h, log[..k], log[k])
  }

  // --------------------------------------------------------- logs only grow

  lemma ReviewGrows(x: seq<Record>, y: seq<Record>, t: string, a: Option<string>, v: Reviewer.Verdict)
    requires HasReview(x, t, a, v)
    ensures HasReview(x + y, t, a, v)
  {
    var j :| 0 <= j < |x| && x[j] == Record(t, Reviewed(a, v));
    assert (x + y)[j] == x[j];
  }

  lemma PauseGrows(x: seq<Record>, y: seq<Record>, t: string, a: Option<string>, v: Reviewer.Verdict)
    requires PausedFor(x, t, a, v)
    ensures PausedFor(x + y, t, a, v)
  {
    var m :| 0 <= m < |x| && x[m] == Record(t, Paused) && HasReview(x[..m], t, a, v);
    assert (x + y)[m] == x[m] && (x + y)[..m] == x[..m];
  }

  lemma ClearedGrows(x: seq<Record>, y: seq<Record>, t: string, a: Option<string>, v: Reviewer.Verdict)
    requires Cleared(x, t, a, v)
    ensures Cleared(x + y, t, a, v)
  {
    var n :| 0 <= n < |x| && x[n] == Record(t, Resumed) && PausedFor(x[..n], t, a, v);
    assert (x + y)[n] == x[n] && (x + y)[..n] == x[..n];
  }

  lemma SafeAppend(h: Host, log: seq<Record>, e: Record)
    requires Safe(h, log) && EntryOk(h, log, e)
    ensures Safe(h, log + [e])
  {
    forall k | 0 <= k < |log + [e]|
      ensures EntryOk(h, (log + [e])[..k], (log + [e])[k])
    {
      assert (log + [e])[..k] == log[..k];
      assert log[..|log|] == log;
    }
  }

  // --------------------------------------------------- what backs a run's state

  /** The log accounts for the verdict a run carries, its suspension and its approval. */
  ghost predicate Backed(log: seq<Record>, r: Run) {
    var a, v := r.state.fixArtifact, r.state.securityVerdict;
    && (r.phase == At(SecurityGate) || r.phase == At(Verification) || r.phase.Suspended? ==>
          v.Some? && HasReview(log, r.thread, a, v.value))
    && (r.phase.Suspended? ==> v.Some? && PausedFor(log, r.thread, a, v.value))
    && (r.approved && (r.phase == At(SecurityGate) || r.phase == At(Verification)) ==>
          v.Some? && Cleared(log, r.thread, a, v.value))
  }

  lemma BackedGrows(x: seq<Record>, y: seq<Record>, r: Run)
    requires Backed(x, r)
    ensures Backed(x + y, r)
  {
    var a, v := r.state.fixArtifact, r.state.securityVerdict;
    if v.Some? && HasReview(x, r.thread, a, v.value) {
      ReviewGrows(x, y, r.thread, a, v.value);
    }
    if v.Some? && PausedFor(x, r.thread, a, v.value) {
      PauseGrows(x, y, r.thread, a, v.value);
    }
    if v.Some? && Cleared(x, r.thread, a, v.value) {
      ClearedGrows(x, y, r.thread, a, v.value);
    }
  }

  // ---------------------------------------------------------- one step, by node

  /** Events that neither review nor verify. */
  predicate Neutral(e: Event) {
    !e.Reviewed? && !e.Verified?
  }

  predicate AllNeutral(events: seq<Event>) {
    forall k | 0 <= k < |events| :: Neutral(events[k])
  }

  lemma CallEventsNeutral(call: Call)
    ensures AllNeutral(CallEvents(call))
  {
  }

  /** The reviewer's step either reports its verdict last and goes to the gate, or
      reports nothing of interest and goes elsewhere. */
  lemma ReviewStep(h: Host, r: Run, g: CostGuard.GuardState, i: Input) returns (v: Reviewer.Verdict)
    requires r.phase == At(SecurityReviewer) && !r.state.costExhausted
    ensures var o := Step(h, r, g, i);
            && o.run.thread == r.thread && o.run.approved == r.approved
            && o.run.state.fixArtifact == r.state.fixArtifact
            && (if o.run.phase == At(SecurityGate) then
                  && o.events == CallEvents(Complete(g, r.state.traceId, i)) + [Reviewed(r.state.fixArtifact, v)]
                  && o.run.state.securityVerdict == Some(v)
                  && (Reviewer.ScanFires(h.low, r.state.fixArtifact.GetOr("")) ==> v == Reviewer.HighRisk)
                else
                  AllNeutral(o.events) && o.run.phase != At(Verification) && !o.run.phase.Suspended?)
  {
    var n := RunReviewer(h, r.state, g, i);
    CallEventsNeutral(Complete(g, r.state.traceId, i));
    v := Reviewer.Safe;
    if n.end.Commit? && n.end.update.securityVerdict.Set? {
      v := n.end.update.securityVerdict.value.value;
    }
  }

  lemma GateStep(h: Host, r: Run, g: CostGuard.GuardState, i: Input)
    requires r.phase == At(SecurityGate)
    ensures var o := Step(h, r, g, i);
            && o.run.thread == r.thread && o.run.approved == r.approved
            && o.run.state.fixArtifact == r.state.fixArtifact
            && o.run.state.securityVerdict == r.state.securityVerdict
            && o.events == (if o.run.phase.Suspended? then [Paused] else [])
            && (o.run.phase.Suspended? ==> !r.approved)
            && o.run.phase != At(SecurityGate)
  {
  }

  lemma VerifyStep(h: Host, r: Run, g: CostGuard.GuardState, i: Input)
    requires r.phase == At(Verification)
    ensures var o := Step(h, r, g, i);
            && o.run.phase != At(SecurityGate) && o.run.phase != At(Verification) && !o.run.phase.Suspended?
            && (o.events == [] ||
                exists ran :: o.events == [Verified(r.state.fixArtifact, ran)]
                           && RanAccepted(h, r.state.fixArtifact, ran))
  {
    var outcome := Verifier.Outcome(h.compile, r.state.fixArtifact, i.sandbox);
    if outcome.Report? {
      Verifier.OneOfResultAndError(h.compile, r.state.fixArtifact, i.sandbox);
    }
  }

  predicate Plain(p: Phase) {
    p != At(SecurityReviewer) && p != At(SecurityGate) && p != At(Verification) && !p.Suspended?
  }

  predicate Calling(p: Phase) {
    p.Retrying? || p == At(Diagnosis) || p == At(Supervisor) || p == At(CodeFixer) || p == At(InfraSre)
  }

  lemma CallingStep(h: Host, r: Run, g: CostGuard.GuardState, i: Input)
    requires Calling(r.phase) && PipelineBounds.RetryNode(r)
    ensures var o := Step(h, r, g, i);
            && AllNeutral(o.events)
            && o.run.phase != At(SecurityGate) && o.run.phase != At(Verification) && !o.run.phase.Suspended?
  {
    PipelineBounds.StepSettles(h, r, g, i);
    PipelineBounds.StepHasShape(h, r, g, i);
    CallEventsNeutral(Complete(g, r.state.traceId, i));
  }

  lemma OtherStep(h: Host, r: Run, g: CostGuard.GuardState, i: Input)
    requires Plain(r.phase) && !Calling(r.phase)
    ensures var o := Step(h, r, g, i);
            && AllNeutral(o.events)
            && o.run.phase != At(SecurityGate) && o.run.phase != At(Verification) && !o.run.phase.Suspended?
  {
  }

  // --------------------------------------------------------- a step and the log

  lemma {:induction false} NeutralKeepsSafe(h: Host, log: seq<Record>, t: string, events: seq<Event>)
    requires Safe(h, log) && AllNeutral(events)
    ensures Safe(h, log + Tag(t, events))
  {
    if events == [] {
      assert log + Tag(t, events) == log;
    } else {
      var last := |events| - 1;
      NeutralKeepsSafe(h, log, t, events[..last]);
      SafeAppend(h, log + Tag(t, events[..last]), Record(t, events[last]));
      assert log + Tag(t, events) == log + Tag(t, events[..last]) + [Record(t, events[last])];
    }
  }

  lemma TagAppend(t: string, x: seq<Event>, e: Event)
    ensures Tag(t, x + [e]) == Tag(t, x) + [Record(t, e)]
  {
  }

  lemma ReviewAdvances(h: Host, log: seq<Record>, r: Run, g: CostGuard.GuardState, i: Input)
    requires Safe(h, log) && r.phase == At(SecurityReviewer) && RunInv(r)
    ensures var o := Step(h, r, g, i);
            var log' := log + Tag(r.thread, o.events);
            Safe(h, log') && Backed(log', o.run)
  {
    var v := ReviewStep(h, r, g, i);
    var o := Step(h, r, g, i);
    if o.run.phase == At(SecurityGate) {
      var calls := CallEvents(Complete(g, r.state.traceId, i));
      var e := Reviewed(r.state.fixArtifact, v);
      CallEventsNeutral(Complete(g, r.state.traceId, i));
      NeutralKeepsSafe(h, log, r.thread, calls);
      var mid := log + Tag(r.thread, calls);
      SafeAppend(h, mid, Record(r.thread, e));
      TagAppend(r.thread, calls, e);
      assert log + Tag(r.thread, o.events) == mid + [Record(r.thread, e)];
      assert (mid + [Record(r.thread, e)])[|mid|] == Record(r.thread, e);
      assert HasReview(mid + [Record(r.thread, e)], r.thread, r.state.fixArtifact, v);
    } else {
      NeutralKeepsSafe(h, log, r.thread, o.events);
    }
  }

  lemma GateAdvances(h: Host, log: seq<Record>, r: Run, g: CostGuard.GuardState, i: Input)
    requires Safe(h, log) && r.phase == At(SecurityGate) && Backed(log, r)
    ensures var o := Step(h, r, g, i);
            var log' := log + Tag(r.thread, o.events);
            Safe(h, log') && Backed(log', o.run)
  {
    GateStep(h, r, g, i);
    var o := Step(h, r, g, i);
    var e := Record(r.thread, Paused);
    if o.run.phase.Suspended? {
      assert Tag(r.thread, [Paused]) == [e];
      SafeAppend(h, log, e);
      ReviewGrows(log, [e], r.thread, r.state.fixArtifact, r.state.securityVerdict.value);
      assert (log + [e])[|log|] == e && (log + [e])[..|log|] == log;
      assert PausedFor(log + [e], r.thread, r.state.fixArtifact, r.state.securityVerdict.value);
    } else {
      assert log + Tag(r.thread, []) == log;
    }
  }

  lemma VerifyAdvances(h: Host, log: seq<Record>, r: Run, g: CostGuard.GuardState, i: Input)
    requires Safe(h, log) && r.phase == At(Verification) && Backed(log, r) && RunInv(r)
    ensures var o := Step(h, r, g, i);
            var log' := log + Tag(r.thread, o.events);
            Safe(h, log') && Backed(log', o.run)
  {
    VerifyStep(h, r, g, i);
    var o := Step(h, r, g, i);
    if o.events == [] {
      assert log + Tag(r.thread, []) == log;
    } else {
      var ran :| o.events == [Verified(r.state.fixArtifact, ran)] && RanAccepted(h, r.state.fixArtifact, ran);
      var e := Record(r.thread, Verified(r.state.fixArtifact, ran));
      assert Tag(r.thread, o.events) == [e];
      GateWasPassed(log, r);
      SafeAppend(h, log, e);
    }
  }

  /** A run at the verifier is allowed to be there. */
  lemma GateWasPassed(log: seq<Record>, r: Run)
    requires r.phase == At(Verification) && Backed(log, r) && RunInv(r)
    ensures MayVerify(log, r.thread, r.state.fixArtifact)
  {
    var v := r.state.securityVerdict.value;
    assert HasReview(log, r.thread, r.state.fixArtifact, v);
    assert v == Reviewer.HighRisk ==> Cleared(log, r.thread, r.state.fixArtifact, v);
  }

  lemma PlainAdvances(h: Host, log: seq<Record>, r: Run, g: CostGuard.GuardState, i: Input)
    requires Safe(h, log) && Plain(r.phase) && PipelineBounds.RetryNode(r)
    ensures var o := Step(h, r, g, i);
            var log' := log + Tag(r.thread, o.events);
            Safe(h, log') && Backed(log', o.run)
  {
    if Calling(r.phase) {
      CallingStep(h, r, g, i);
    } else {
      OtherStep(h, r, g, i);
    }
    NeutralKeepsSafe(h, log, r.thread, Step(h, r, g, i).events);
  }

  lemma RunAdvances(h: Host, log: seq<Record>, r: Run, g: CostGuard.GuardState, i: Input)
    requires Safe(h, log) && Backed(log, r) && RunInv(r)
    ensures var o := Step(h, r, g, i);
            var log' := log + Tag(r.thread, o.events);
            Safe(h, log') && Backed(log', o.run) && RunInv(o.run) && o.run.thread == r.thread
  {
    StepKeepsInv(h, r, g, i);
    if r.phase == At(SecurityReviewer) {
      ReviewAdvances(h, log, r, g, i);
    } else if r.phase == At(SecurityGate) {
      GateAdvances(h, log, r, g, i);
    } else if r.phase == At(Verification) {
      VerifyAdvances(h, log, r, g, i);
    } else if r.phase.Suspended? {
      assert Step(h, r, g, i).events == [];
      assert log + Tag(r.thread, []) == log;
    } else {
      PlainAdvances(h, log, r, g, i);
    }
  }

  // ------------------------------------------------------------ whole histories

  ghost predicate Known(log: seq<Record>, r: Run) {
    RunInv(r) && Backed(log, r)
  }

  ghost predicate WorldInv(h: Host, w: World) {
    && Safe(h, w.log)
    && (forall i | 0 <= i < |w.runs| :: Known(w.log, w.runs[i]))
    && (forall t | t in w.parked ::
          w.parked[t].thread == t && w.parked[t].phase.Suspended? && Known(w.log, w.parked[t]))
  }

  lemma KnownGrows(x: seq<Record>, y: seq<Record>, r: Run)
    requires Known(x, r)
    ensures Known(x + y, r)
  {
    BackedGrows(x, y, r);
  }

  lemma OthersStayKnown(w: World, y: seq<Record>)
    ensures forall i | 0 <= i < |w.runs| && Known(w.log, w.runs[i]) :: Known(w.log + y, w.runs[i])
    ensures forall t | t in w.parked && Known(w.log, w.parked[t]) :: Known(w.log + y, w.parked[t])
  {
    forall i | 0 <= i < |w.runs| && Known(w.log, w.runs[i])
      ensures Known(w.log + y, w.runs[i])
    {
      KnownGrows(w.log, y, w.runs[i]);
    }
    forall t | t in w.parked && Known(w.log, w.parked[t])
      ensures Known(w.log + y, w.parked[t])
    {
      KnownGrows(w.log, y, w.parked[t]);
    }
  }

  lemma AdvanceKeepsInv(h: Host, durable: bool, w: World, index: nat, input: Input)
    requires WorldInv(h, w)
    ensures WorldInv(h, Act(h, durable, w, Advance(index, input)))
  {
    if index < |w.runs| {
      var r := w.runs[index];
      assert Known(w.log, r);
      RunAdvances(h, w.log, r, w.guard, input);
      var o := Step(h, r, w.guard, input);
      OthersStayKnown(w, Tag(r.thread, o.events));
    }
  }

  /** A parked run that is resumed is cleared by the two events. */
  lemma ResumedIsKnown(log: seq<Record>, r: Run)
    requires Known(log, r) && r.phase.Suspended?
    ensures Known(log + [Record(r.thread, Resumed)], Resume(r))
  {
    var e := Record(r.thread, Resumed);
    var a, v := r.state.fixArtifact, r.state.securityVerdict.value;
    ReviewGrows(log, [e], r.thread, a, v);
    assert (log + [e])[|log|] == e && (log + [e])[..|log|] == log;
    assert Cleared(log + [e], r.thread, a, v);
    ResumeKeepsInv(r);
  }

  lemma ResumptionIsNeutral(h: Host, w: World, thread: string)
    requires WorldInv(h, w)
    ensures WorldInv(h, w.(log := w.log + [Record(thread, Resumed)]))
  {
    SafeAppend(h, w.log, Record(thread, Resumed));
    OthersStayKnown(w, [Record(thread, Resumed)]);
  }

  lemma OneMoreRun(h: Host, w: World, r: Run)
    requires WorldInv(h, w) && Known(w.log, r)
    ensures WorldInv(h, w.(runs := w.runs + [r]))
  {
  }

  lemma ApproveKeepsInv(h: Host, durable: bool, w: World, thread: string)
    requires WorldInv(h, w)
    ensures WorldInv(h, Act(h, durable, w, Approve(thread)))
  {
    if thread in w.parked {
      ResumptionIsNeutral(h, w, thread);
      ResumedIsKnown(w.log, w.parked[thread]);
      OneMoreRun(h, w.(log := w.log + [Record(thread, Resumed)]), Resume(w.parked[thread]));
    }
  }

  lemma ActKeepsInv(h: Host, durable: bool, w: World, a: Action)
    requires WorldInv(h, w)
    ensures WorldInv(h, Act(h, durable, w, a))
  {
    match a
    case Begin(thread, logPath, traceId) => StartIsInv(thread, logPath, traceId);
    case Advance(index, input) => AdvanceKeepsInv(h, durable, w, index, input);
    case Restart(_) =>
    case Approve(thread) => ApproveKeepsInv(h, durable, w, thread);
  }

  lemma {:induction false} HistoryKeepsInv(h: Host, durable: bool, w: World, actions: seq<Action>)
    requires WorldInv(h, w)
    ensures WorldInv(h, History(h, durable, w, actions))
    decreases |actions|
  {
    if actions != [] {
      ActKeepsInv(h, durable, w, actions[0]);
      HistoryKeepsInv(h, durable, Act(h, durable, w, actions[0]), actions[1..]);
    }
  }

  // -------------------------------------------------------------- main results

  /** In every history the verifier is only ever given an artifact that the reviewer gave
      a verdict for, after a suspension and a later resumption if that verdict was
      HIGH_RISK, and a container only runs the accepted form of that artifact. */
  lemma VerifiedOnlyAfterReview(h: Host, durable: bool, g: CostGuard.GuardState, actions: seq<Action>, k: nat)
    requires k < |History(h, durable, Initial(g), actions).log|
    requires History(h, durable, Initial(g), actions).log[k].event.Verified?
    ensures var log := History(h, durable, Initial(g), actions).log;
            var Record(t, Verified(a, ran)) := log[k];
            MayVerify(log[..k], t, a) && RanAccepted(h, a, ran)
  {
    HistoryKeepsInv(h, durable, Initial(g), actions);
    var log := History(h, durable, Initial(g), actions).log;
    assert EntryOk(h, log[..k], log[k]);
  }

  /** If the very code a container ran names a destructive operation, or a secret in any
      letter case, then whatever the model said, the artifact had been given HIGH_RISK and the thread had been suspended
      and resumed before. */
  lemma FlaggedCodeOnlyAfterApproval(h: Host, durable: bool, g: CostGuard.GuardState,
                                     actions: seq<Action>, k: nat)
    requires Text.FoldsLikeLower(h.low)
    requires var log := History(h, durable, Initial(g), actions).log;
             && k < |log| && log[k].event.Verified? && log[k].event.ran.Some?
             && (Reviewer.Destroys(log[k].event.ran.value)
                 || Reviewer.NamesSecret(Text.Fold(h.low, log[k].event.ran.value)))
    ensures var log := History(h, durable, Initial(g), actions).log;
            Cleared(log[..k], log[k].thread, log[k].event.artifact, Reviewer.HighRisk)
  {
    VerifiedOnlyAfterReview(h, durable, g, actions, k);
    HistoryKeepsInv(h, durable, Initial(g), actions);
    var log := History(h, durable, Initial(g), actions).log;
    var a := log[k].event.artifact;
    Reviewer.FiresIff(h.low, log[k].event.ran.value);
    Reviewer.ScanSurvivesNormalization(h.low, h.compile, a.value);
    var v :| HasReview(log[..k], log[k].thread, a, v) &&
             (v == Reviewer.HighRisk ==> Cleared(log[..k], log[k].thread, a, v));
    var j :| 0 <= j < k && log[..k][j] == Record(log[k].thread, Reviewed(a, v));
    assert EntryOk(h, log[..j], log[j]);
  }
}
