/** Suspending at the gate and resuming later does what a run whose gate never
    suspended would have done. */
module PipelineResume {
  import opened Prelude
  import opened Pipeline
  import CostGuard
  import Json
  import Reviewer
  import Text

  // ------------------------------------------------- what a resumed run does

  predicate Late(p: Phase) {
    p == At(SecurityGate) || p == At(Verification) || p == At(FormatReport) || p.Finished? || p.Crashed?
  }

  /** The findings of the first segment, which the second one only reads. */
  datatype Findings = Findings(
    traceId: Option<string>,
    errorCategory: Option<string>,
    specialist: Option<string>,
    routingDecision: Option<string>,
    fixArtifact: Option<string>,
    securityVerdict: Option<Reviewer.Verdict>)

  function FindingsOf(s: AgentState): Findings {
    Findings(s.traceId, s.errorCategory, s.specialist, s.routingDecision, s.fixArtifact, s.securityVerdict)
  }

  lemma LateStep(h: Host, r: Run, g: CostGuard.GuardState, i: Input)
    requires Late(r.phase) && r.approved
    ensures var o := Step(h, r, g, i);
            && Late(o.run.phase) && o.run.approved
            && o.guard == g
            && FindingsOf(o.run.state) == FindingsOf(r.state)
            && forall e | e in o.events :: e.Verified? || e.Reported?
  {
  }

  /** After resumption only the gate, the verifier and the report run: no model is
      called, nothing is spent, and the findings stay as they were. */
  lemma {:induction false} ResumedSegment(h: Host, r: Run, moments: seq<Moment>)
    requires Late(r.phase) && r.approved
    ensures var t := Follow(h, r, moments);
            && Late(t.run.phase)
            && FindingsOf(t.run.state) == FindingsOf(r.state)
            && forall e | e in t.events :: e.Verified? || e.Reported?
    ensures |moments| >= 3 ==> !Follow(h, r, moments).run.phase.Active()
    decreases |moments|
  {
    if moments != [] {
      var (g, i) := moments[0];
      LateStep(h, r, g, i);
      ResumedSegment(h, Step(h, r, g, i).run, moments[1..]);
    }
    if |moments| >= 3 {
      LateEnds(h, r, moments);
    }
  }

  function Distance(p: Phase): nat {
    match p
    case At(SecurityGate) => 3
    case At(Verification) => 2
    case At(FormatReport) => 1
    case _ => 0
  }

  lemma LateComesCloser(h: Host, r: Run, g: CostGuard.GuardState, i: Input)
    requires Late(r.phase) && r.approved
    ensures r.phase.Active() ==> Distance(Step(h, r, g, i).run.phase) < Distance(r.phase)
    ensures !r.phase.Active() ==> Step(h, r, g, i).run == r
  {
  }

  lemma {:induction false} LateEnds(h: Host, r: Run, moments: seq<Moment>)
    requires Late(r.phase) && r.approved && Distance(r.phase) <= |moments|
    ensures !Follow(h, r, moments).run.phase.Active()
    decreases |moments|
  {
    if moments != [] {
      var (g, i) := moments[0];
      LateStep(h, r, g, i);
      LateComesCloser(h, r, g, i);
      LateEnds(h, Step(h, r, g, i).run, moments[1..]);
    }
  }

  // ------------------------------------------------------------- refinement

  /** The same run with the approval given beforehand. */
  function Approve(r: Run): Run {
    r.(approved := true)
  }

  predicate GateWouldSuspend(r: Run) {
    r.phase == At(SecurityGate) && r.state.securityVerdict == Some(Reviewer.HighRisk)
  }

  /** Only the gate looks at the approval, and only when the verdict is HIGH_RISK. */
  lemma ApprovalIsReadAtGate(h: Host, r: Run, g: CostGuard.GuardState, i: Input)
    requires !GateWouldSuspend(r)
    ensures var o := Step(h, r, g, i);
            Step(h, Approve(r), g, i) == Stepped(Approve(o.run), o.guard, o.events)
  {
    match r.phase
    case At(SecurityGate) =>
    case _ =>
  }

  lemma {:induction false} FollowConcat(h: Host, r: Run, x: seq<Moment>, y: seq<Moment>)
    ensures var first := Follow(h, r, x);
            var second := Follow(h, first.run, y);
            Follow(h, r, x + y) == Trail(second.run, first.events + second.events)
    decreases |x|
  {
    if x == [] {
      assert x + y == y;
      assert [] + Follow(h, r, y).events == Follow(h, r, y).events;
    } else {
      assert (x + y)[1..] == x[1..] + y;
      var one := Step(h, r, x[0].0, x[0].1);
      FollowConcat(h, one.run, x[1..], y);
      var first := Follow(h, one.run, x[1..]);
      var second := Follow(h, first.run, y);
      assert one.events + (first.events + second.events) == (one.events + first.events) + second.events;
    }
  }

  /** Up to the gate the two runs are in step: a run that stands at a gate about to
      suspend has not passed one before. */
  lemma {:induction false} InStepUpToGate(h: Host, r: Run, moments: seq<Moment>)
    requires GateWouldSuspend(Follow(h, r, moments).run) && !r.approved
    ensures Follow(h, Approve(r), moments)
         == Trail(Approve(Follow(h, r, moments).run), Follow(h, r, moments).events)
    ensures !Follow(h, r, moments).run.approved
    decreases |moments|
  {
    if moments != [] {
      var (g, i) := moments[0];
      var one := Step(h, r, g, i);
      if GateWouldSuspend(r) {
        StaysSuspended(h, one.run, moments[1..]);
      } else {
        ApprovalIsReadAtGate(h, r, g, i);
        InStepUpToGate(h, one.run, moments[1..]);
      }
    }
  }

  lemma {:induction false} StaysSuspended(h: Host, r: Run, moments: seq<Moment>)
    requires r.phase.Suspended?
    ensures Follow(h, r, moments) == Trail(r, [])
    decreases |moments|
  {
    if moments != [] {
      StaysSuspended(h, r, moments[1..]);
    }
  }

  lemma FollowOne(h: Host, r: Run, m: Moment)
    ensures Follow(h, r, [m]) == Trail(Step(h, r, m.0, m.1).run, Step(h, r, m.0, m.1).events)
  {
    var one := Step(h, r, m.0, m.1);
    assert [m][1..] == [];
    assert Follow(h, one.run, []) == Trail(one.run, []);
    assert one.events + [] == one.events;
  }

  /** The approved gate commits the same thing whenever it runs. */
  lemma GateIgnoresMoment(h: Host, r: Run, m: Moment, n: Moment)
    requires GateWouldSuspend(r) && r.approved
    ensures Step(h, r, m.0, m.1).run == Step(h, r, n.0, n.1).run
    ensures Step(h, r, m.0, m.1).events == [] && Step(h, r, n.0, n.1).events == []
  {
  }

  lemma SuspendsAtGate(h: Host, r: Run, before: seq<Moment>, gate: Moment)
    requires !r.approved && GateWouldSuspend(Follow(h, r, before).run)
    ensures var there := Follow(h, r, before);
            Follow(h, r, before + [gate]) == Trail(there.run.(phase := Suspended), there.events + [Paused])
  {
    InStepUpToGate(h, r, before);
    FollowConcat(h, r, before, [gate]);
    FollowOne(h, Follow(h, r, before).run, gate);
  }

  /** From the gate on, with the approval given. */
  function Onward(h: Host, there: Run, m: Moment, after: seq<Moment>): Trail {
    Follow(h, Step(h, Approve(there), m.0, m.1).run, after)
  }

  lemma ApprovedGoesOn(h: Host, there: Run, m: Moment, after: seq<Moment>)
    requires GateWouldSuspend(there)
    ensures Follow(h, Approve(there), [m] + after) == Onward(h, there, m, after)
  {
    GateIgnoresMoment(h, Approve(there), m, m);
    assert ([m] + after)[1..] == after;
    assert [] + Onward(h, there, m, after).events == Onward(h, there, m, after).events;
  }

  /** Run to the gate, suspend there, resume at any later time and with any guard, and
      go on: the final state is that of the approved run that never stopped, and the
      events are the same but for the pause. */
  lemma SuspendThenResumeRefines(h: Host, r: Run, before: seq<Moment>, gate: Moment,
                                 reentry: Moment, after: seq<Moment>)
    requires !r.approved && GateWouldSuspend(Follow(h, r, before).run)
    ensures var suspended := Follow(h, r, before + [gate]);
            var straight := Follow(h, Approve(r), before + ([gate] + after));
            && suspended.run.phase.Suspended?
            && (var resumed := Follow(h, Resume(suspended.run), [reentry] + after);
                && resumed.run == straight.run
                && suspended.events == Follow(h, r, before).events + [Paused]
                && straight.events == Follow(h, r, before).events + resumed.events)
  {
    var there := Follow(h, r, before).run;
    SuspendsAtGate(h, r, before, gate);
    InStepUpToGate(h, r, before);
    FollowConcat(h, Approve(r), before, [gate] + after);
    ApprovedGoesOn(h, there, gate, after);
    ApprovedGoesOn(h, there, reentry, after);
    GateIgnoresMoment(h, Approve(there), gate, reentry);
  }

  // ------------------------------------------------------- what is held at the gate

  /** The reviewer could not be asked, the artifact has one of the words, or the model says
      so. */
  ghost predicate MustBeHeld(h: Host, r: Run, g: CostGuard.GuardState, i: Input) {
    var end := Complete(g, r.state.traceId, i).end;
    || end.Failed?
    || Reviewer.Destroys(r.state.fixArtifact.GetOr(""))
    || Reviewer.NamesSecret(Text.Fold(h.low, r.state.fixArtifact.GetOr("")))
    || (end.Answer? && h.decode(end.content).Field("verdict") == Some(Json.JString("HIGH_RISK")))
  }

  lemma ReviewThenGate(h: Host, r: Run, g: CostGuard.GuardState, i: Input)
    requires r.phase == At(SecurityReviewer) && !r.approved && !r.state.costExhausted
    requires var end := Complete(g, r.state.traceId, i).end; end.Answer? || end.Failed?
    ensures var one := Step(h, r, g, i).run;
            && one.phase == At(SecurityGate) && !one.approved
            && (one.state.securityVerdict == Some(Reviewer.HighRisk) <==> MustBeHeld(h, r, g, i))
  {
    Reviewer.FiresIff(h.low, r.state.fixArtifact.GetOr(""));
  }

  /** Once the reviewer has been asked, a fix is held for approval exactly when it must be,
      and goes on to the verifier otherwise; a reply that cannot be read holds nothing. */
  lemma HeldIff(h: Host, r: Run, review: Moment, gate: Moment)
    requires r.phase == At(SecurityReviewer) && !r.approved && !r.state.costExhausted
    requires var end := Complete(review.0, r.state.traceId, review.1).end; end.Answer? || end.Failed?
    ensures var held := Follow(h, r, [review, gate]).run;
            && held.phase == (if MustBeHeld(h, r, review.0, review.1) then Suspended else At(Verification))
            && held.state.fixArtifact == r.state.fixArtifact
  {
    ReviewThenGate(h, r, review.0, review.1);
    var one := Step(h, r, review.0, review.1).run;
    assert [review, gate][1..] == [gate];
    FollowOne(h, one, gate);
  }
}
