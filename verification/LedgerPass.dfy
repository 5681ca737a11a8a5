/** What a scenario's row says of its run: it passes exactly if the fix was seen to work and a
    report was seen to be written, and a run that raised nothing was taken to its end. */
module LedgerPass {
  import opened Prelude
  import opened Pipeline
  import opened PipelineProofs
  import opened Ledger
  import opened LedgerProofs
  import CostGuard
  import Normalizer
  import PipelineBounds
  import PipelineProducer
  import PipelineResume
  import Verifier

  /** A container ran the verifier's artifact to exit status 0, its logs were read, and it
      was cleaned up after. */
  ghost predicate SeenToWork(feed: nat -> Input, e: Stamped) {
    var env := feed(e.at).sandbox;
    && e.event.Verified? && e.event.ran.Some?
    && env.wait == Verifier.Returns(0) && env.stdout.Returns? && env.stderr.Returns? && env.cleanup.None?
  }

  ghost predicate Worked(feed: nat -> Input, log: seq<Stamped>) {
    exists j :: 0 <= j < |log| && SeenToWork(feed, log[j])
  }

  ghost predicate Told(log: seq<Stamped>) {
    exists j :: 0 <= j < |log| && log[j].event.Reported?
  }

  predicate HasSucceeded(s: AgentState) {
    s.executionError.None? && s.executionResult.Some? && s.executionResult.value.status == Verifier.Success
  }

  /** The state says what the log shows. */
  ghost predicate Matches(r: Run, feed: nat -> Input, log: seq<Stamped>) {
    && RunInv(r)
    && (HasSucceeded(r.state) <==> Worked(feed, log))
    && (r.state.reportText.Some? <==> Told(log))
    && (r.state.reportText.Some? ==> r.phase.Finished?)
  }

  lemma MoreIsSeen(feed: nat -> Input, log: seq<Stamped>, more: seq<Stamped>)
    ensures Worked(feed, log + more) <==> Worked(feed, log) || Worked(feed, more)
    ensures Told(log + more) <==> Told(log) || Told(more)
  {
    var all := log + more;
    assert forall j | 0 <= j < |more| :: all[|log| + j] == more[j];
    if Worked(feed, more) {
      var j :| 0 <= j < |more| && SeenToWork(feed, more[j]);
      assert SeenToWork(feed, all[|log| + j]);
    }
    if Worked(feed, log) {
      var j :| 0 <= j < |log| && SeenToWork(feed, log[j]);
      assert SeenToWork(feed, all[j]);
    }
    if Told(more) {
      var j :| 0 <= j < |more| && more[j].event.Reported?;
      assert all[|log| + j].event.Reported?;
    }
    if Told(log) {
      var j :| 0 <= j < |log| && log[j].event.Reported?;
      assert all[j].event.Reported?;
    }
  }

  /** Before the verifier there is no result, and before the last node no report. */
  lemma NothingYet(r: Run)
    requires RunInv(r) && r.phase.Active()
    ensures r.state.reportText.None?
    ensures r.phase != At(FormatReport) ==> !HasSucceeded(r.state)
  {
  }

  lemma VerifierStepMatches(h: Host, r: Run, g: CostGuard.GuardState, feed: nat -> Input, k: nat)
    requires RunInv(r) && r.phase == At(Verification)
    ensures var o := Step(h, r, g, feed(k));
            && (HasSucceeded(o.run.state) <==> Worked(feed, Stamp(k, o.events)))
            && o.run.state.reportText.None? && !Told(Stamp(k, o.events))
  {
    var o := Step(h, r, g, feed(k));
    Verifier.SuccessIff(h.compile, r.state.fixArtifact, feed(k).sandbox);
    var outcome := Verifier.Outcome(h.compile, r.state.fixArtifact, feed(k).sandbox);
    if outcome.Report? {
      Verifier.OneOfResultAndError(h.compile, r.state.fixArtifact, feed(k).sandbox);
      assert Stamp(k, o.events) == [Stamped(k, Verified(r.state.fixArtifact, outcome.ran))];
      if HasSucceeded(o.run.state) {
        assert SeenToWork(feed, Stamp(k, o.events)[0]);
      }
    }
  }

  lemma ReportStepMatches(h: Host, r: Run, g: CostGuard.GuardState, feed: nat -> Input, k: nat)
    requires RunInv(r) && r.phase == At(FormatReport)
    ensures var o := Step(h, r, g, feed(k));
            && HasSucceeded(o.run.state) == HasSucceeded(r.state) && !Worked(feed, Stamp(k, o.events))
            && (o.run.state.reportText.Some? <==> Told(Stamp(k, o.events)))
            && (o.run.state.reportText.Some? ==> o.run.phase.Finished?)
  {
    var o := Step(h, r, g, feed(k));
    if o.events != [] {
      assert Stamp(k, o.events)[0].event.Reported?;
    }
  }

  /** The other nodes show neither event. */
  predicate ShowsNeither(events: seq<Event>) {
    forall j | 0 <= j < |events| :: !events[j].Verified? && !events[j].Reported?
  }

  /** A node that leaves the report alone and shows neither event. */
  predicate StaysQuiet(n: NodeRun) {
    ShowsNeither(n.events) && (n.end.Commit? ==> n.end.update.reportText == Keep) && !n.end.Interrupt?
  }

  lemma CallShowsNeither(s: AgentState, g: CostGuard.GuardState, i: Input)
    ensures ShowsNeither(CallEvents(Complete(g, s.traceId, i)))
  {
  }

  lemma FirstNodesShowNeither(h: Host, s: AgentState, g: CostGuard.GuardState, i: Input)
    ensures StaysQuiet(RunDiagnosis(h, s, g, i)) && StaysQuiet(RunSupervisor(h, s, g, i))
  {
    CallShowsNeither(s, g, i);
  }

  lemma SpecialistShowsNeither(h: Host, node: Node, s: AgentState, g: CostGuard.GuardState, i: Input)
    ensures StaysQuiet(RunSpecialist(h, node, s, g, i)) && StaysQuiet(RunRetry(node, s, g, i))
  {
    CallShowsNeither(s, g, i);
  }

  lemma ReviewerShowsNeither(h: Host, s: AgentState, g: CostGuard.GuardState, i: Input)
    ensures StaysQuiet(RunReviewer(h, s, g, i))
  {
    CallShowsNeither(s, g, i);
  }

  lemma CallingNodeShowsNeither(h: Host, r: Run, g: CostGuard.GuardState, i: Input)
    requires r.phase.Active() && PipelineBounds.CallsModel(r.phase.node) && PipelineBounds.RetryNode(r)
    ensures StaysQuiet(PipelineBounds.StepRun(h, r, g, i))
  {
    match r.phase.node
    case Diagnosis => FirstNodesShowNeither(h, r.state, g, i);
    case Supervisor => FirstNodesShowNeither(h, r.state, g, i);
    case CodeFixer => SpecialistShowsNeither(h, CodeFixer, r.state, g, i);
    case InfraSre => SpecialistShowsNeither(h, InfraSre, r.state, g, i);
    case SecurityReviewer => ReviewerShowsNeither(h, r.state, g, i);
  }

  lemma QuietNodeShowsNeither(h: Host, r: Run, g: CostGuard.GuardState, i: Input)
    requires r.phase.At? && !PipelineBounds.CallsModel(r.phase.node)
    requires r.phase.node != Verification && r.phase.node != FormatReport
    ensures var n := PipelineBounds.StepRun(h, r, g, i);
            n.events == [] && (n.end.Commit? ==> n.end.update.reportText == Keep)
  {
  }

  lemma OtherStepShowsNeither(h: Host, r: Run, g: CostGuard.GuardState, i: Input)
    requires PipelineBounds.RetryNode(r) && r.phase.Active()
    requires r.phase != At(Verification) && r.phase != At(FormatReport)
    ensures var o := Step(h, r, g, i);
            ShowsNeither(o.events) && o.run.state.reportText == r.state.reportText
  {
    PipelineBounds.StepSettles(h, r, g, i);
    if PipelineBounds.CallsModel(r.phase.node) {
      CallingNodeShowsNeither(h, r, g, i);
    } else {
      QuietNodeShowsNeither(h, r, g, i);
    }
  }

  lemma StepMatches(h: Host, r: Run, g: CostGuard.GuardState, feed: nat -> Input, k: nat, log: seq<Stamped>)
    requires Matches(r, feed, log) && PipelineBounds.RetryNode(r) && r.phase.Active()
    ensures var o := Step(h, r, g, feed(k));
            Matches(o.run, feed, log + Stamp(k, o.events))
  {
    var o := Step(h, r, g, feed(k));
    StepKeepsInv(h, r, g, feed(k));
    MoreIsSeen(feed, log, Stamp(k, o.events));
    NothingYet(r);
    if r.phase == At(Verification) {
      VerifierStepMatches(h, r, g, feed, k);
    } else if r.phase == At(FormatReport) {
      ReportStepMatches(h, r, g, feed, k);
    } else {
      OtherStepShowsNeither(h, r, g, feed(k));
      OtherStepsKeepResult(h, r, g, feed(k));
    }
  }

  lemma {:induction false} DriveMatches(h: Host, r: Run, g: CostGuard.GuardState, feed: nat -> Input, k: nat,
                                        log: seq<Stamped>)
    requires Matches(r, feed, log) && PipelineBounds.RetryNode(r)
    ensures Matches(Drive(h, r, g, feed, k).run, feed, log + DriveEvents(h, r, g, feed, k))
    decreases PipelineBounds.Rank(r.phase)
  {
    if r.phase.Active() {
      OneStepOfDrive(h, r, g, feed, k);
      StepMatches(h, r, g, feed, k, log);
      var one := Step(h, r, g, feed(k));
      var first, later := Stamp(k, one.events), DriveEvents(h, one.run, one.guard, feed, k + 1);
      DriveMatches(h, one.run, one.guard, feed, k + 1, log + first);
      Regroup(log, first, later);
    } else {
      Regroup(log, [], []);
    }
  }

  lemma ResumeMatches(r: Run, feed: nat -> Input, log: seq<Stamped>)
    requires Matches(r, feed, log) && r.phase.Suspended?
    ensures Matches(Resume(r), feed, log) && PipelineBounds.RetryNode(Resume(r))
    ensures !Told(log) && !Worked(feed, log)
  {
    ResumeKeepsInv(r);
  }

  /** A scenario passes if and only if, in its own run, the verifier was seen to run the fix
      to exit status 0 with logs and clean-up in order, and a report was written. */
  lemma PassedIff(h: Host, s: Scenario, traceId: string, g: CostGuard.GuardState, feed: nat -> Input)
    ensures var start := Ledger.Opening(s, traceId);
            var log := PlayEvents(h, start, g, feed);
            RowOf(s, traceId, g.totalSpent, Play(h, start, g, feed)).passed <==> Worked(feed, log) && Told(log)
  {
    var start := Ledger.Opening(s, traceId);
    var first, log := Drive(h, start, g, feed, 0), DriveEvents(h, start, g, feed, 0);
    assert Matches(start, feed, []);
    DriveMatches(h, start, g, feed, 0, []);
    DriveEnds(h, start, g, feed, 0);
    assert [] + log == log && log + [] == log;
    if first.run.phase.Suspended? {
      ResumeMatches(first.run, feed, log);
      DriveMatches(h, Resume(first.run), first.guard, feed, first.used, log);
      DriveEnds(h, Resume(first.run), first.guard, feed, first.used);
    }
  }

  /** A scenario that raised nothing has a result, and it is that of a run taken to its end,
      through the gate if it had to be: no row is made of a run that is still held. */
  lemma PlayedToTheEnd(h: Host, s: Scenario, traceId: string, g: CostGuard.GuardState, feed: nat -> Input)
    ensures var played := Play(h, Ledger.Opening(s, traceId), g, feed);
            played.error.None? ==> played.result.Some? && exists approved :: EndState(played.result.value, approved)
  {
    var start := Ledger.Opening(s, traceId);
    var first := Drive(h, start, g, feed, 0);
    assert Genuine(h, start, feed, []);
    DriveIsGenuine(h, start, g, feed, 0, []);
    DriveEnds(h, start, g, feed, 0);
    if first.run.phase.Suspended? {
      ResumeKeepsInv(first.run);
      var second := Drive(h, Resume(first.run), first.guard, feed, first.used);
      DriveIsGenuine(h, Resume(first.run), first.guard, feed, first.used, [] + DriveEvents(h, start, g, feed, 0));
      DriveEnds(h, Resume(first.run), first.guard, feed, first.used);
      LateDriveIsFree(h, Resume(first.run), first.guard, feed, first.used);
      if second.run.phase.Finished? {
        assert EndState(second.run.state, second.run.approved);
      }
    } else if first.run.phase.Finished? {
      assert EndState(first.run.state, first.run.approved);
    }
  }

  /** An exception on the books is the one that ended the last segment played, and there is
      a result exactly if there was a first segment without one. */
  lemma RaisedIsTold(h: Host, s: Scenario, traceId: string, g: CostGuard.GuardState, feed: nat -> Input)
    ensures var start := Ledger.Opening(s, traceId);
            var played := Play(h, start, g, feed);
            var first := Drive(h, start, g, feed, 0);
            && (played.result.None? <==> first.run.phase.Crashed?)
            && (forall message | first.run.phase == Crashed(message) :: played.error == Some(message))
            && (played.error.Some? && !first.run.phase.Crashed? ==>
                  && first.run.phase.Suspended? && played.result == Some(first.run.state)
                  && Drive(h, Resume(first.run), first.guard, feed, first.used).run.phase
                     == Crashed(played.error.value))
  {
  }

  // ------------------------------------------------------------------- the summary

  /** The places of the rows that passed. */
  function PassedRows(rows: seq<Row>, n: nat): set<nat>
    requires n <= |rows|
  {
    set k: nat | k < n && rows[k].passed
  }

  lemma {:induction false} PassedAreCounted(rows: seq<Row>, n: nat)
    requires n <= |rows|
    ensures CountPassed(rows[..n]) == |PassedRows(rows, n)|
  {
    if n == 0 {
      assert PassedRows(rows, n) == {};
    } else {
      PassedAreCounted(rows, n - 1);
      assert rows[..n][..n - 1] == rows[..n - 1];
      if rows[n - 1].passed {
        assert PassedRows(rows, n) == PassedRows(rows, n - 1) + {n - 1};
      } else {
        assert PassedRows(rows, n) == PassedRows(rows, n - 1);
      }
    }
  }

  /** In its own run, on the guard its predecessors left, the scenario's fix was seen to
      work and a report to be written. */
  ghost predicate Fixed(h: Host, scenarios: seq<Scenario>, g: CostGuard.GuardState, world: Surroundings, k: nat)
    requires k < |scenarios|
  {
    var before := SheetOf(h, scenarios[..k], g, world).guard;
    var log := PlayEvents(h, Ledger.Opening(scenarios[k], world(k).0), before, world(k).1);
    Worked(world(k).1, log) && Told(log)
  }

  lemma RowIsFixed(h: Host, scenarios: seq<Scenario>, g: CostGuard.GuardState, world: Surroundings, k: nat)
    requires g.currency == CostGuard.CNY && g.totalSpent <= g.budgetLimit
    requires k < |SheetOf(h, scenarios, g, world).rows|
    ensures k < |scenarios|
    ensures SheetOf(h, scenarios, g, world).rows[k].passed <==> Fixed(h, scenarios, g, world, k)
  {
    RowsAreOwn(h, scenarios, g, world, k);
    PassedIff(h, scenarios[k], world(k).0, SheetOf(h, scenarios[..k], g, world).guard, world(k).1);
  }

  ghost function FixedOnes(h: Host, scenarios: seq<Scenario>, g: CostGuard.GuardState, world: Surroundings)
    : set<nat>
  {
    set k: nat | k < |scenarios| && Fixed(h, scenarios, g, world, k)
  }

  /** In a benchmark that completes, the number of passed scenarios is that of the scenarios
      whose fix was seen to work and to be reported, each in its own run. */
  lemma SummaryCountsFixes(h: Host, scenarios: seq<Scenario>, g: CostGuard.GuardState, world: Surroundings)
    requires g.currency == CostGuard.CNY && g.totalSpent <= g.budgetLimit
    requires SheetOf(h, scenarios, g, world).stop.None?
    ensures SummaryOf(scenarios, SheetOf(h, scenarios, g, world)).passed == |FixedOnes(h, scenarios, g, world)|
  {
    var rows := SheetOf(h, scenarios, g, world).rows;
    BooksBalance(h, scenarios, g, world);
    PassedAreCounted(rows, |rows|);
    assert rows[..|rows|] == rows;
    forall k: nat | k < |scenarios|
      ensures rows[k].passed <==> Fixed(h, scenarios, g, world, k)
    {
      RowIsFixed(h, scenarios, g, world, k);
    }
    assert PassedRows(rows, |rows|) == FixedOnes(h, scenarios, g, world);
  }

  /** A row shows the category the diagnosis left, the first 200 characters of the artifact,
      and the exception, if there was one; blanks are marked. */
  lemma RowShows(s: Scenario, traceId: string, spentBefore: int, played: Played)
    ensures var row := RowOf(s, traceId, spentBefore, played);
            && row.traceId == traceId && row.error == played.error
            && (forall found | played.result == Some(found) ::
                  && row.classification == (if found.errorCategory.GetOr("") == "" then "UNKNOWN"
                                            else found.errorCategory.value)
                  && (if found.fixArtifact.GetOr("") == "" then row.resolution == "(none)"
                      else row.resolution <= found.fixArtifact.value
                           && |row.resolution| <= 200
                           && (|row.resolution| < 200 ==> row.resolution == found.fixArtifact.value)))
            && (played.result.None? ==> row.classification == "UNKNOWN" && row.resolution == "(none)")
  {
  }

  // ------------------------------------------------------------- whose log it reads

  predicate Reads(s: AgentState, logPath: string, traceId: string) {
    s.logPath == logPath && (traceId != "" ==> s.traceId == Some(traceId))
  }

  lemma {:induction false} DriveReads(h: Host, r: Run, g: CostGuard.GuardState, feed: nat -> Input, k: nat,
                                      logPath: string, traceId: string)
    requires PipelineBounds.RetryNode(r) && Reads(r.state, logPath, traceId)
    ensures Reads(Drive(h, r, g, feed, k).run.state, logPath, traceId)
    decreases PipelineBounds.Rank(r.phase)
  {
    if r.phase.Active() {
      OneStepOfDrive(h, r, g, feed, k);
      var one := Step(h, r, g, feed(k));
      StepKeepsPath(h, r, g, feed(k));
      if traceId != "" {
        PipelineProducer.TraceIdIsThreaded(h, r, [(g, feed(k))]);
        PipelineResume.FollowOne(h, r, (g, feed(k)));
      }
      DriveReads(h, one.run, one.guard, feed, k + 1, logPath, traceId);
    }
  }

  lemma StepKeepsPath(h: Host, r: Run, g: CostGuard.GuardState, i: Input)
    ensures Step(h, r, g, i).run.state.logPath == r.state.logPath
  {
  }

  /** The result of a scenario is that of a run on the scenario's own log, under the trace id
      its row carries. */
  lemma ScenarioReadsOwnLog(h: Host, s: Scenario, traceId: string, g: CostGuard.GuardState, feed: nat -> Input)
    ensures var played := Play(h, Ledger.Opening(s, traceId), g, feed);
            forall found | played.result == Some(found) :: Reads(found, s.errorLogPath, traceId)
  {
    var start := Ledger.Opening(s, traceId);
    var first := Drive(h, start, g, feed, 0);
    DriveReads(h, start, g, feed, 0, s.errorLogPath, traceId);
    if first.run.phase.Suspended? {
      DriveReads(h, Resume(first.run), first.guard, feed, first.used, s.errorLogPath, traceId);
    }
  }
}
