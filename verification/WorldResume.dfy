/** A fix held at the gate is not lost: with a durable store it outlives the process, and the
    approval has it run. */
module WorldResume {
  import opened Prelude
  import opened Pipeline
  import opened PipelineAnswers
  import opened World
  import CostGuard
  import Reviewer
  import Verifier
  import WorldBudget

  /** A run about to be held. */
  predicate Holds(r: Run) {
    r.phase == At(SecurityGate) && !r.approved && r.state.securityVerdict == Some(Reviewer.HighRisk)
  }

  /** Holding a run parks it if the store is durable, and only then. */
  lemma HeldIsParked(h: Host, durable: bool, w: World, index: nat, gate: Input)
    requires index < |w.runs| && Holds(w.runs[index])
    ensures var r := w.runs[index];
            var e := Act(h, durable, w, Advance(index, gate));
            && e.runs == w.runs[index := r.(phase := Suspended)] && e.guard == w.guard && e.used == w.used
            && e.parked == (if durable then w.parked[r.thread := r.(phase := Suspended)] else w.parked)
            && e.log == w.log + [Record(r.thread, Paused)]
  {
    Gates(h, w.runs[index], (w.guard, gate));
    assert Tag(w.runs[index].thread, [Paused]) == [Record(w.runs[index].thread, Paused)];
  }

  /** The three steps of a resumed run that nothing goes wrong with: the gate lets it pass
      and it is parked no more, the verifier runs on its artifact, the report is written. */
  lemma ResumedGoesThrough(h: Host, durable: bool, w: World, index: nat, gate: Input, verify: Input, report: Input,
                           path: string, text: string)
    requires index < |w.runs| && w.runs[index].phase == At(SecurityGate) && w.runs[index].approved
    requires w.runs[index].state.errorLog.Some?
    requires Verifier.Outcome(h.compile, w.runs[index].state.fixArtifact, verify.sandbox).Report?
    requires report.report == Written(text, path)
    ensures var r := w.runs[index];
            var o := Verifier.Outcome(h.compile, r.state.fixArtifact, verify.sandbox);
            var e := History(h, durable, w, [Advance(index, gate), Advance(index, verify), Advance(index, report)]);
            && |e.runs| == |w.runs| && e.runs[index].phase.Finished? && e.runs[index].state.reportPath == Some(path)
            && e.runs[index].state.executionResult == o.result && e.guard == w.guard
            && e.parked == w.parked - {r.thread}
            && e.log == w.log + [Record(r.thread, Verified(r.state.fixArtifact, o.ran)),
                                 Record(r.thread, Reported(path))]
  {
    var one := Act(h, durable, w, Advance(index, gate));
    LetsPass(h, durable, w, index, gate);
    var two := Act(h, durable, one, Advance(index, verify));
    RunsFix(h, durable, one, index, verify);
    WritesReport(h, durable, two, index, report, path, text);
    ThreeActs(h, durable, w, Advance(index, gate), Advance(index, verify), Advance(index, report));
  }

  lemma LetsPass(h: Host, durable: bool, w: World, index: nat, gate: Input)
    requires index < |w.runs| && w.runs[index].phase == At(SecurityGate) && w.runs[index].approved
    ensures var r := w.runs[index];
            var held := r.state.securityVerdict == Some(Reviewer.HighRisk);
            Act(h, durable, w, Advance(index, gate))
            == w.(runs := w.runs[index := r.(phase := At(Verification), state := r.state.(approvalRequired := held))],
                  parked := w.parked - {r.thread})
  {
    var r := w.runs[index];
    Gates(h, r, (w.guard, gate));
    assert Tag(r.thread, []) == [] && w.log + [] == w.log;
  }

  lemma RunsFix(h: Host, durable: bool, w: World, index: nat, verify: Input)
    requires index < |w.runs| && w.runs[index].phase == At(Verification)
    requires Verifier.Outcome(h.compile, w.runs[index].state.fixArtifact, verify.sandbox).Report?
    ensures var r := w.runs[index];
            var o := Verifier.Outcome(h.compile, r.state.fixArtifact, verify.sandbox);
            var e := Act(h, durable, w, Advance(index, verify));
            && e == w.(runs := w.runs[index := e.runs[index]],
                       log := w.log + [Record(r.thread, Verified(r.state.fixArtifact, o.ran))])
            && |e.runs| == |w.runs| && e.runs[index].phase == At(FormatReport) && e.runs[index].thread == r.thread
            && e.runs[index].state.executionResult == o.result
            && e.runs[index].state.errorLog == r.state.errorLog
  {
    var r := w.runs[index];
    var o := Verifier.Outcome(h.compile, r.state.fixArtifact, verify.sandbox);
    Verifies(h, r, (w.guard, verify));
    assert Tag(r.thread, [Verified(r.state.fixArtifact, o.ran)])
        == [Record(r.thread, Verified(r.state.fixArtifact, o.ran))];
  }

  lemma WritesReport(h: Host, durable: bool, w: World, index: nat, report: Input, path: string, text: string)
    requires index < |w.runs| && w.runs[index].phase == At(FormatReport)
    requires w.runs[index].state.errorLog.Some? && report.report == Written(text, path)
    ensures var r := w.runs[index];
            Act(h, durable, w, Advance(index, report))
            == w.(runs := w.runs[index := r.(phase := Finished,
                                             state := r.state.(reportText := Some(text), reportPath := Some(path)))],
                  log := w.log + [Record(r.thread, Reported(path))])
  {
    var r := w.runs[index];
    Reports(h, r, (w.guard, report), path, text);
    assert Tag(r.thread, [Reported(path)]) == [Record(r.thread, Reported(path))];
  }

  lemma ThreeActs(h: Host, durable: bool, w: World, a: Action, b: Action, c: Action)
    ensures History(h, durable, w, [a, b, c])
         == Act(h, durable, Act(h, durable, Act(h, durable, w, a), b), c)
  {
    var one := Act(h, durable, w, a);
    var two := Act(h, durable, one, b);
    assert [a, b, c][1..] == [b, c] && [b, c][1..] == [c] && [c][1..] == [];
    assert History(h, durable, two, [c]) == History(h, durable, Act(h, durable, two, c), []);
    assert History(h, durable, one, [b, c]) == History(h, durable, two, [c]);
  }

  /** What the outside does to a held run: the gate stops it, the process dies, the approval
      comes, and the resumed run is taken to its end by the next process. */
  datatype Ordeal = Ordeal(gate: Input, budgetLimit: nat, reentry: Input, verify: Input, report: Input)

  function Actions(index: nat, thread: string, o: Ordeal): seq<Action> {
    [Advance(index, o.gate), Restart(o.budgetLimit), Approve(thread)]
    + [Advance(0, o.reentry), Advance(0, o.verify), Advance(0, o.report)]
  }

  /** With a durable store the fix held is run after all, by another process and on another
      budget, of which it takes nothing; without one the approval finds nothing to resume. */
  lemma HeldSurvivesRestart(h: Host, durable: bool, w: World, index: nat, o: Ordeal, path: string, text: string)
    requires index < |w.runs| && Holds(w.runs[index]) && w.runs[index].state.errorLog.Some?
    requires w.runs[index].thread !in w.parked
    requires Verifier.Outcome(h.compile, w.runs[index].state.fixArtifact, o.verify.sandbox).Report?
    requires o.report.report == Written(text, path)
    ensures var r := w.runs[index];
            var found := Verifier.Outcome(h.compile, r.state.fixArtifact, o.verify.sandbox);
            var e := History(h, durable, w, Actions(index, r.thread, o));
            && e.guard == CostGuard.Opening(o.budgetLimit, CostGuard.CNY)
            && (durable ==>
                  && |e.runs| == 1 && e.runs[0].phase.Finished? && e.runs[0].state.reportPath == Some(path)
                  && e.runs[0].state.executionResult == found.result
                  && e.log == w.log + [Record(r.thread, Paused), Record(r.thread, Resumed),
                                       Record(r.thread, Verified(r.state.fixArtifact, found.ran)),
                                       Record(r.thread, Reported(path))])
            && (!durable ==> e.runs == [] && e.log == w.log + [Record(r.thread, Paused)])
  {
    var r := w.runs[index];
    var early := [Advance(index, o.gate), Restart(o.budgetLimit), Approve(r.thread)];
    var late := [Advance(0, o.reentry), Advance(0, o.verify), Advance(0, o.report)];
    WorldBudget.HistoryConcat(h, durable, w, early, late);
    ThreeActs(h, durable, w, early[0], early[1], early[2]);
    HeldIsParked(h, durable, w, index, o.gate);
    var back := History(h, durable, w, early);
    if durable {
      assert back.runs == [Resume(r.(phase := Suspended))];
      ResumedGoesThrough(h, durable, back, 0, o.reentry, o.verify, o.report, path, text);
    } else {
      assert back.runs == [];
      ThreeActs(h, durable, back, late[0], late[1], late[2]);
    }
  }
}
