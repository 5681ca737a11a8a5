/** The benchmark runner: scenarios run one after another on one budget guard, each is
    charged the difference it made to the guard's total, and a tripped budget ends it all. */
module Ledger {
  import opened Prelude
  import opened Pipeline
  import CostGuard
  import PipelineBounds
  import Reviewer
  import Verifier

  datatype Scenario = Scenario(
    scenarioId: string,
    errorLogPath: string,
    category: string,
    expectedVerdict: Reviewer.Verdict)

  datatype Row = Row(
    scenarioId: string,
    classification: string,
    resolution: string,
    passed: bool,
    cost: int,
    traceId: string,
    error: Option<string>)

  /** How one scenario ends: with a row, or with the error that aborts the benchmark. */
  datatype ScenarioEnd =
    | Recorded(row: Row, verdict: Option<Reviewer.Verdict>)
    | BudgetError(currentSpent: int, budgetLimit: int)

  // ------------------------------------------------------------ one invocation

  datatype Driven = Driven(run: Run, guard: CostGuard.GuardState, used: nat)

  /** A run stepped to the end of its segment; `k` inputs have been used before. */
  function Drive(h: Host, r: Run, g: CostGuard.GuardState, feed: nat -> Input, k: nat): Driven
    requires PipelineBounds.RetryNode(r)
    decreases PipelineBounds.Rank(r.phase)
  {
    if !r.phase.Active() then Driven(r, g, k)
    else
      PipelineBounds.StepLowersRank(h, r, g, feed(k));
      PipelineBounds.StepKeepsRetryNode(h, r, g, feed(k));
      var one := Step(h, r, g, feed(k));
      Drive(h, one.run, one.guard, feed, k + 1)
  }

  /** An event and the number of the input it answers to. */
  datatype Stamped = Stamped(at: nat, event: Event)

  function Stamp(k: nat, events: seq<Event>): seq<Stamped> {
    seq(|events|, j requires 0 <= j < |events| => Stamped(k, events[j]))
  }

  /** What can be observed of the segment. */
  function DriveEvents(h: Host, r: Run, g: CostGuard.GuardState, feed: nat -> Input, k: nat): seq<Stamped>
    requires PipelineBounds.RetryNode(r)
    decreases PipelineBounds.Rank(r.phase)
  {
    if !r.phase.Active() then []
    else
      PipelineBounds.StepLowersRank(h, r, g, feed(k));
      PipelineBounds.StepKeepsRetryNode(h, r, g, feed(k));
      var one := Step(h, r, g, feed(k));
      Stamp(k, one.events) + DriveEvents(h, one.run, one.guard, feed, k + 1)
  }

  method Invoke(h: Host, guard: CostGuard.CostGuard, start: Run, feed: nat -> Input, from: nat)
    returns (run: Run, used: nat)
    requires PipelineBounds.RetryNode(start)
    modifies guard
    ensures Driven(run, guard.state, used) == Drive(h, start, old(guard.state), feed, from)
    ensures !run.phase.Active() && PipelineBounds.RetryNode(run)
  {
    run, used := start, from;
    while run.phase.Active()
      invariant PipelineBounds.RetryNode(run)
      invariant Drive(h, run, guard.state, feed, used) == Drive(h, start, old(guard.state), feed, from)
      decreases PipelineBounds.Rank(run.phase)
    {
      PipelineBounds.StepLowersRank(h, run, guard.state, feed(used));
      PipelineBounds.StepKeepsRetryNode(h, run, guard.state, feed(used));
      var one := Step(h, run, guard.state, feed(used));
      run, guard.state, used := one.run, one.guard, used + 1;
    }
  }

  // -------------------------------------------------------------- one scenario

  function Opening(s: Scenario, traceId: string): Run {
    var run := Pipeline.Start("bench-" + s.scenarioId, s.errorLogPath, Some(traceId));
    run.(state := run.state.(costAccumulated := Some(0)))
  }

  /** What is left of the invocations: the last state they returned, if any, and the
      exception, if there was one. */
  datatype Played = Played(result: Option<AgentState>, error: Option<string>, guard: CostGuard.GuardState)

  /** A suspended run is resumed at once; an exception there leaves the suspended state. */
  function Play(h: Host, start: Run, g: CostGuard.GuardState, feed: nat -> Input): Played
    requires PipelineBounds.RetryNode(start)
  {
    var first := Drive(h, start, g, feed, 0);
    if first.run.phase.Crashed? then Played(None, Some(first.run.phase.message), first.guard)
    else if !first.run.phase.Suspended? then Played(Some(first.run.state), None, first.guard)
    else
      var second := Drive(h, Resume(first.run), first.guard, feed, first.used);
      if second.run.phase.Crashed?
      then Played(Some(first.run.state), Some(second.run.phase.message), second.guard)
      else Played(Some(second.run.state), None, second.guard)
  }

  /** What can be observed of the scenario, its resumption included. */
  function PlayEvents(h: Host, start: Run, g: CostGuard.GuardState, feed: nat -> Input): seq<Stamped>
    requires PipelineBounds.RetryNode(start)
  {
    var first := Drive(h, start, g, feed, 0);
    DriveEvents(h, start, g, feed, 0)
    + if first.run.phase.Suspended?
      then DriveEvents(h, Resume(first.run), first.guard, feed, first.used)
      else []
  }

  predicate RanOut(result: Option<AgentState>) {
    result.Some? && (result.value.costExhausted || CostGuardTriggered in result.value.agentTrace)
  }

  /** The fix verifiably succeeded: report, no execution error, status success. */
  predicate Resolved(result: Option<AgentState>) {
    && result.Some?
    && result.value.reportText.Some?
    && result.value.executionError.None?
    && result.value.executionResult.Some?
    && result.value.executionResult.value.status == Verifier.Success
  }

  function OrElse(text: Option<string>, default: string): string {
    if text.GetOr("") == "" then default else text.value
  }

  function Shorten(text: string): string {
    if |text| > 200 then text[..200] else text
  }

  function RowOf(s: Scenario, traceId: string, spentBefore: int, played: Played): Row {
    Row(s.scenarioId,
        OrElse(if played.result.Some? then played.result.value.errorCategory else None, "UNKNOWN"),
        Shorten(OrElse(if played.result.Some? then played.result.value.fixArtifact else None, "(none)")),
        Resolved(played.result),
        played.guard.totalSpent - spentBefore,
        traceId,
        played.error)
  }

  function EndOf(s: Scenario, traceId: string, spentBefore: int, played: Played): ScenarioEnd {
    if RanOut(played.result) then BudgetError(played.guard.totalSpent, played.guard.budgetLimit)
    else Recorded(RowOf(s, traceId, spentBefore, played),
                  if played.result.Some? then played.result.value.securityVerdict else None)
  }

  method RunV2(h: Host, guard: CostGuard.CostGuard, s: Scenario, traceId: string, feed: nat -> Input)
    returns (end: ScenarioEnd)
    modifies guard
    ensures var played := Play(h, Opening(s, traceId), old(guard.state), feed);
            && guard.state == played.guard
            && end == EndOf(s, traceId, old(guard.state.totalSpent), played)
  {
    var before := guard.Snapshot();
    var result: Option<AgentState> := None;
    var error: Option<string> := None;
    var run, used := Invoke(h, guard, Opening(s, traceId), feed, 0);
    if run.phase.Crashed? {
      error := Some(run.phase.message);
    } else {
      result := Some(run.state);
      if run.phase.Suspended? {
        run, used := Invoke(h, guard, Resume(run), feed, used);
        if run.phase.Crashed? {
          error := Some(run.phase.message);
        } else {
          result := Some(run.state);
        }
      }
    }
    var after := guard.Snapshot();
    var played := Played(result, error, after);
    if RanOut(result) {
      return BudgetError(after.totalSpent, after.budgetLimit);
    }
    var verdict := if result.Some? then result.value.securityVerdict else None;
    return Recorded(RowOf(s, traceId, before.totalSpent, played), verdict);
  }

  // ------------------------------------------------------------- the whole run

  type Verdicts = map<string, Option<Reviewer.Verdict>>

  /** The books after some of the scenarios; `stop` is the error that aborted it. */
  datatype Sheet = Sheet(rows: seq<Row>, verdicts: Verdicts, guard: CostGuard.GuardState,
                         stop: Option<ScenarioEnd>)

  /** What the outside does to the n-th scenario: its fresh trace id and its inputs. */
  type Surroundings = nat -> (string, nat -> Input)

  function PlayScenario(h: Host, s: Scenario, g: CostGuard.GuardState, world: Surroundings, n: nat): Played {
    Play(h, Opening(s, world(n).0), g, world(n).1)
  }

  function Entered(sheet: Sheet, s: Scenario, traceId: string, played: Played): Sheet {
    match EndOf(s, traceId, sheet.guard.totalSpent, played)
    case Recorded(row, verdict) =>
      Sheet(sheet.rows + [row], sheet.verdicts[s.scenarioId := verdict], played.guard, None)
    case BudgetError(spent, limit) =>
      sheet.(guard := played.guard, stop := Some(BudgetError(spent, limit)))
  }

  function SheetOf(h: Host, scenarios: seq<Scenario>, g: CostGuard.GuardState, world: Surroundings): Sheet {
    if scenarios == [] then Sheet([], map[], g, None)
    else
      var n := |scenarios| - 1;
      var before := SheetOf(h, scenarios[..n], g, world);
      if before.stop.Some? then before
      else Entered(before, scenarios[n], world(n).0, PlayScenario(h, scenarios[n], before.guard, world, n))
  }

  function TotalCost(rows: seq<Row>): int {
    if rows == [] then 0 else TotalCost(rows[..|rows| - 1]) + rows[|rows| - 1].cost
  }

  function CountPassed(rows: seq<Row>): nat {
    if rows == [] then 0 else CountPassed(rows[..|rows| - 1]) + if rows[|rows| - 1].passed then 1 else 0
  }

  /** A HIGH_RISK security scenario that the pipeline did not call HIGH_RISK. */
  predicate FalseNegative(s: Scenario, verdicts: Verdicts) {
    && s.category == "SECURITY" && s.expectedVerdict == Reviewer.HighRisk
    && !(s.scenarioId in verdicts && verdicts[s.scenarioId] == Some(Reviewer.HighRisk))
  }

  function FalseNegatives(scenarios: seq<Scenario>, verdicts: Verdicts): seq<string> {
    if scenarios == [] then []
    else
      var n := |scenarios| - 1;
      FalseNegatives(scenarios[..n], verdicts)
      + if FalseNegative(scenarios[n], verdicts) then [scenarios[n].scenarioId] else []
  }

  datatype Summary = Summary(scenarioCount: nat, passed: nat, totalCost: int, falseNegatives: seq<string>)

  datatype BenchmarkEnd = Summarised(rows: seq<Row>, summary: Summary) | Aborted(error: ScenarioEnd)

  function SummaryOf(scenarios: seq<Scenario>, sheet: Sheet): Summary {
    Summary(|scenarios|, CountPassed(sheet.rows), TotalCost(sheet.rows),
            FalseNegatives(scenarios, sheet.verdicts))
  }

  method Summarise(scenarios: seq<Scenario>, rows: seq<Row>, verdicts: Verdicts) returns (summary: Summary)
    ensures summary == Summary(|scenarios|, CountPassed(rows), TotalCost(rows),
                               FalseNegatives(scenarios, verdicts))
  {
    var passed: nat, total := 0, 0;
    for i := 0 to |rows|
      invariant passed == CountPassed(rows[..i]) && total == TotalCost(rows[..i])
    {
      assert rows[..i + 1][..i] == rows[..i];
      passed, total := passed + (if rows[i].passed then 1 else 0), total + rows[i].cost;
    }
    var ids := [];
    for i := 0 to |scenarios|
      invariant ids == FalseNegatives(scenarios[..i], verdicts)
    {
      assert scenarios[..i + 1][..i] == scenarios[..i];
      if FalseNegative(scenarios[i], verdicts) {
        ids := ids + [scenarios[i].scenarioId];
      }
    }
    assert rows[..|rows|] == rows && scenarios[..|scenarios|] == scenarios;
    summary := Summary(|scenarios|, passed, total, ids);
  }

  /** A fresh guard with the given budget, then scenario after scenario. */
  method RunBenchmark(h: Host, scenarios: seq<Scenario>, budget: nat, world: Surroundings)
    returns (end: BenchmarkEnd, guard: CostGuard.CostGuard)
    ensures fresh(guard)
    ensures var sheet := SheetOf(h, scenarios, CostGuard.Opening(budget, CostGuard.CNY), world);
            && guard.state == sheet.guard
            && end == if sheet.stop.Some? then Aborted(sheet.stop.value)
                      else Summarised(sheet.rows, SummaryOf(scenarios, sheet))
  {
    guard := new CostGuard.CostGuard(budget, CostGuard.CNY);
    ghost var opening := guard.state;
    var rows: seq<Row> := [];
    var verdicts: Verdicts := map[];
    for i := 0 to |scenarios|
      invariant SheetOf(h, scenarios[..i], opening, world) == Sheet(rows, verdicts, guard.state, None)
    {
      assert scenarios[..i + 1][..i] == scenarios[..i];
      var s := scenarios[i];
      var one := RunV2(h, guard, s, world(i).0, world(i).1);
      match one {
        case Recorded(row, verdict) =>
          rows := rows + [row];
          verdicts := verdicts[s.scenarioId := verdict];
        case BudgetError(_, _) =>
          StopIsFinal(h, scenarios, i + 1, opening, world);
          return Aborted(one), guard;
      }
    }
    assert scenarios[..|scenarios|] == scenarios;
    var summary := Summarise(scenarios, rows, verdicts);
    end := Summarised(rows, summary);
  }

  /** Nothing is entered after the scenario that aborted the benchmark. */
  lemma {:induction false} StopIsFinal(h: Host, scenarios: seq<Scenario>, i: nat, g: CostGuard.GuardState,
                                       world: Surroundings)
    requires i <= |scenarios| && SheetOf(h, scenarios[..i], g, world).stop.Some?
    ensures SheetOf(h, scenarios, g, world) == SheetOf(h, scenarios[..i], g, world)
  {
    if i == |scenarios| {
      assert scenarios[..i] == scenarios;
    } else {
      var n := |scenarios| - 1;
      var init := scenarios[..n];
      assert init[..i] == scenarios[..i];
      StopIsFinal(h, init, i, g, world);
      StopCarries(h, scenarios, g, world);
    }
  }

  lemma StopCarries(h: Host, scenarios: seq<Scenario>, g: CostGuard.GuardState, world: Surroundings)
    requires scenarios != [] && SheetOf(h, scenarios[..|scenarios| - 1], g, world).stop.Some?
    ensures SheetOf(h, scenarios, g, world) == SheetOf(h, scenarios[..|scenarios| - 1], g, world)
  {
  }
}
