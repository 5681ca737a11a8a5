/** Many runs in one process after another: they share the guard, suspended ones are
    parked in the checkpoint store, the process may die at any moment and another one
    may pick the parked runs up. */
module World {
  import opened Prelude
  import opened Pipeline
  import CostGuard

  /** An event of a thread. */
  datatype Record = Record(thread: string, event: Event)

  datatype World = World(
    guard: CostGuard.GuardState,
    runs: seq<Run>,
    parked: map<string, Run>,
    used: set<string>,
    log: seq<Record>)

  datatype Action =
    | Begin(thread: string, logPath: string, traceId: Option<string>)
    | Advance(index: nat, input: Input)
    | Restart(budgetLimit: nat)
    | Approve(thread: string)

  function Initial(g: CostGuard.GuardState): World {
    World(g, [], map[], {}, [])
  }

  function Tag(thread: string, events: seq<Event>): seq<Record> {
    seq(|events|, k requires 0 <= k < |events| => Record(thread, events[k]))
  }

  /** A suspension is saved if the store outlives the graph that wrote it; the save is
      superseded once the resumed gate has committed. */
  function Parked(durable: bool, parked: map<string, Run>, before: Run, after: Run): map<string, Run> {
    if after.phase.Suspended? && before.phase.Active() then
      if durable then parked[after.thread := after] else parked
    else if before.phase == At(SecurityGate) && after.phase == At(Verification) then
      parked - {after.thread}
    else parked
  }

  /** Threads are used once; a step of a run that does not exist, or a resumption of a
      thread that is not parked, changes nothing. A restart loses the runs and the
      guard's total, and reads the budget afresh. */
  function Act(h: Host, durable: bool, w: World, a: Action): World {
    match a
    case Begin(thread, logPath, traceId) =>
      if thread in w.used then w
      else w.(runs := w.runs + [Pipeline.Start(thread, logPath, traceId)], used := w.used + {thread})
    case Advance(index, input) =>
      if index >= |w.runs| then w
      else
        var before := w.runs[index];
        var o := Step(h, before, w.guard, input);
        World(o.guard, w.runs[index := o.run], Parked(durable, w.parked, before, o.run), w.used,
              w.log + Tag(before.thread, o.events))
    case Restart(budgetLimit) =>
      w.(guard := CostGuard.Opening(budgetLimit, CostGuard.CNY), runs := [])
    case Approve(thread) =>
      if thread !in w.parked || !w.parked[thread].phase.Suspended? then w
      else w.(runs := w.runs + [Resume(w.parked[thread])], log := w.log + [Record(thread, Resumed)])
  }

  function History(h: Host, durable: bool, w: World, actions: seq<Action>): World
    decreases |actions|
  {
    if actions == [] then w
    else History(h, durable, Act(h, durable, w, actions[0]), actions[1..])
  }
}
