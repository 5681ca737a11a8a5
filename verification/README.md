# AutoSentinel, verified

A Dafny model of AutoSentinel, which turns a crash alert into a diagnosis, a fix script, a
security verdict, a sandboxed run of the fix and a report. Nothing here is executed: the
files state what the code does and prove properties of it for all inputs, all
interleavings and all crash and resume points.

    dafny verify dfyconfig.toml

## How it is laid out

The incident pipeline is a step function over a state record. A node maps the state to a
partial update (`Pipeline.Update`), the update is merged (`Pipeline.Merge`: the trace is
appended to, everything else is overwritten) and `Pipeline.Successor` picks the next node.
Model replies, provider failures, compiler verdicts, container behaviour, files and clocks
are inputs (`Pipeline.Input`, `Pipeline.Host`), so a statement about all inputs is a
statement about all of these.

| file | models |
|---|---|
| `Pipeline.dfy` | state and merge (autosentinel/models.py:32-73), the nodes and edges (autosentinel/multi_agent_graph.py:90-275), the guarded model call (autosentinel/llm/ark_client.py:93-188), the producers' call, compile check and one retry (autosentinel/agents/_producer_contract.py:35-77), routing fallback (autosentinel/agents/supervisor.py:44-66), category fallback (autosentinel/agents/diagnosis.py:34-45), log parsing (autosentinel/nodes/parse_log.py:11-46), what the caller sees (autosentinel/__init__.py:63-68) |
| `PipelineProofs.dfy`, `PipelineBounds.dfy`, `PipelineProducer.dfy`, `PipelineResume.dfy` | one run under interference: invariant and trace shapes, termination and call counts, the producers' contract, suspension and resumption |
| `PipelineAnswers.dfy`, `WholeRun.dfy` | what a run makes of the answers it gets, told without its own functions, node by node and from alert to report |
| `World.dfy`, `WorldSafety.dfy`, `WorldReviews.dfy`, `WorldTraces.dfy`, `WorldBudget.dfy`, `WorldResume.dfy` | any number of runs on one guard, parked in a checkpoint store, with process restarts |
| `CostGuard.dfy`, `GuardThreads.dfy`, `GuardSingleton.dfy` | the budget guard, its lock at the level of single reads and writes, and its lazily built singleton (autosentinel/llm/cost_guard.py) |
| `Fence.dfy`, `Normalizer.dfy`, `WrapperSemantics.dfy`, `Reviewer.dfy`, `Verifier.dfy` | the path of an artifact from the model's reply to the container |
| `Checkpointers.dfy` | which store a graph is built on; the flag `durable` elsewhere says that a DSN is set |
| `Gateway.dfy`, `GatewayProofs.dfy`, `GatewayRace.dfy`, `GatewayIsolation.dfy`, `GatewayBudget.dfy`, `GatewayWitness.dfy`, `GatewayFiles.dfy`, `GatewayRestart.dfy` | the alert queue, its worker, the process's guard, the stores and the status and resume endpoints |
| `Search.dfy`, `Routing.dfy`, `Percentile.dfy`, `Ledger.dfy`, `LedgerProofs.dfy`, `LedgerPass.dfy` | incident search, model routing, benchmark arithmetic and books |
| `Text.dfy`, `Sorting.dfy`, `Sequences.dfy`, `Json.dfy`, `Prelude.dfy` | strings as the host language sees them, a stable sort, small helpers |

Objects that the program updates in place are classes here (`CostGuard.CostGuard`,
`Verifier.Container`, `Gateway.EventGateway`, `Routing.AgentModelConfig`,
`Checkpointers.Registry`); their methods are proved against functions on values, and the
theorems about histories are proved of those functions.

## Findings

- Wrapping a fragment does not always keep its meaning: a fragment without `yield` that
  returns an object with `send` and `throw` has that object drained by the wrapper, although
  the fragment itself never would. The drain may perform effects, raise (a coroutine cannot
  be iterated over at all) or never end. `WrapperSemantics.WrappingPreservesMeaningIff` gives
  the exact condition, `SafeToWrap` one that can be read off the text, and
  `WrappingCanAddEffects`, `WrappingCanRaise` and `WrappingCanHang` the shortest fragments
  that show the difference.
- A job that reads "completed" can come to read "failed": if a resume request finishes
  before the worker has noticed that the run was suspended, the worker's failure record
  overwrites the completed one. `GatewayRace.CompletedIsLostIff` says exactly when,
  `GatewayRace.OrderDecides` shows both orders, and `GatewayWitness.CompletedThenFailed` is
  such a history from an empty gateway.
- Jobs are not independent: they share the budget guard. `GatewayWitness.BudgetCouplesJobs`
  is a history in which a job fails because another one has spent the limit exactly;
  `GatewayBudget.IsolationIff` says when the others make no difference, and
  `IsolationWithinBudget` that they make none while the total stays within the limit.
- A job that a restart catches waiting or under way is never worked on again, though its
  alert is still on file: it reads "processing" for ever (`GatewayRestart.LostJobStaysProcessing`).
- The budget check happens after each response. The module docstring says that the next
  outbound call fails fast; the code has no check before a call.
  `PipelineBounds.SpendsExactly` and `SpentBudgetStillAsks` say exactly when a step calls and
  when that call trips, whatever the guard is, and `WorldBudget.OvershootIsAttained` that the
  bound of one call for each run cannot be improved.
- `strip_markdown_fence` is not idempotent on nested fences
  (`Fence.IdempotentIff`, `Fence.NestedFenceNeedsTwo`).

Where code and documentation differ the model follows the code: two provider attempts, not
the three of autosentinel/llm/errors.py:5; the value given to a resumed gate is discarded,
so nothing is claimed about a decision of "reject"; a resumption needs a durable store,
because without a DSN every graph is built on an empty one.

## Model

| member | source | states |
|---|---|---|
| `PipelineProofs.FollowKeepsInv` | autosentinel/multi_agent_graph.py:228-275 | whatever the inputs and whatever other runs do to the guard, a run that satisfies the state invariant of its node satisfies that of the node it is at after any number of steps |
| `PipelineProofs.TraceShapes` | autosentinel/multi_agent_graph.py:94-136 | the first segment of a run on a fresh thread that ends without an exception leaves no trace after a parse error, the five agents with one specialist and a path, or at most three agents and the budget mark without a result; if it is suspended it has exactly the first four agents, verdict HIGH_RISK and no path |
| `WorldTraces.EveryRunTakesShape` | autosentinel/multi_agent_graph.py:94-136 | so do all runs of every history, resumed ones included, and all suspended ones in the store |
| `PipelineProofs.RouterIsTotal` | autosentinel/multi_agent_graph.py:220-252 | the specialist router's key is always one of its edges, so a supervisor that commits never strands the run |
| `PipelineBounds.SegmentTerminates` | autosentinel/multi_agent_graph.py:242-273 | as many steps as the rank of the current node end a segment, for any inputs |
| `PipelineBounds.StepLowersRank` | autosentinel/multi_agent_graph.py:242-273 | every step of an active run, the producer's retry included, lowers the rank of its position |
| `PipelineBounds.CallsBounded` | autosentinel/agents/_producer_contract.py:57-77 | the calls a run makes and the calls still open to it never exceed what was open before, and each is at most two attempts |
| `PipelineBounds.FiveCallsTenAttempts` | autosentinel/llm/ark_client.py:174-188 | the first segment of a run makes at most five model calls and ten provider attempts |
| `WorldTraces.FiveCallsPerThread` | autosentinel/llm/ark_client.py:174-188 | in every history a thread makes at most that many over all its segments together, however often it is resumed and the process restarted |
| `PipelineBounds.SpendsExactly` | autosentinel/llm/ark_client.py:93-172 | whatever the guard is, a step makes a call if and only if it stands at a calling node with a well-formed trace id; the call trips if and only if it is answered and takes the total over the limit; and the guard is charged exactly what was answered |
| `PipelineBounds.SpentBudgetStillAsks` | autosentinel/llm/cost_guard.py:75-89 | on a guard at or over its limit the call is made all the same, and trips if and only if it is answered and costs something or the total was already over |
| `PipelineBounds.SilenceAfterTrip` | autosentinel/multi_agent_graph.py:119-136 | after its own accumulate has raised, a run makes no further call, not even the retry of its specialist, and trips no second time |
| `PipelineBounds.StepEventsHold` | autosentinel/multi_agent_graph.py:108-126 | a step makes at most one call, trips only right after that call, then goes to the abort node, and the budget flag is set exactly by a trip |
| `PipelineProducer.ProducerContract` | autosentinel/agents/_producer_contract.py:57-77 | a run that is suspended or has reported in its first segment made four calls or five; its artifact is trimmed, and without the fifth call, the retry, it compiles, so that the normaliser leaves it verbatim unless it is empty |
| `WorldTraces.EveryRunKeepsContract` | autosentinel/agents/_producer_contract.py:57-77 | the same of every run of every history, reports after a resumption included, with the calls of its thread |
| `PipelineProducer.TraceIdIsThreaded` | autosentinel/__init__.py:49-61 | the trace id a run is given is never replaced, so every call is made under the id the alert was accepted with |
| `PipelineResume.ResumedSegment` | autosentinel/api/main.py:182-195 | after resumption only gate, verifier and report run: no call, trace id, category, specialist, artifact and verdict unchanged, and three steps are enough |
| `LedgerProofs.ResumptionIsFree` | autosentinel/api/main.py:182-195 | a resumed run taken to its end on any guard leaves the guard as it was, and nothing but a verification and a report can be observed |
| `PipelineResume.SuspendThenResumeRefines` | autosentinel/multi_agent_graph.py:181-191 | running to the gate, suspending and resuming at any later moment ends in the state of the run whose gate never stopped, with the same events but for the pause |
| `PipelineResume.ApprovalIsReadAtGate` | autosentinel/multi_agent_graph.py:181-191 | only a gate with a HIGH_RISK verdict looks at whether it was resumed |
| `PipelineResume.HeldIff` | autosentinel/agents/security_reviewer.py:66-108 | once the reviewer has been asked, review and gate together hold a fix if and only if the provider failed, the artifact has one of the 23 words or the model's verdict is HIGH_RISK, and otherwise pass it on |
| `PipelineAnswers.Opens` | autosentinel/nodes/parse_log.py:11-46 | dispatch and parsing keep the trace id a run was given or take the fresh token, and put the log on file; a file that is missing, no JSON or incomplete ends the run with that reason, an unreadable one with the exception |
| `PipelineAnswers.Diagnoses` | autosentinel/agents/diagnosis.py:34-45 | the category on file is the one of the four the reply names, or CODE if it names none of them |
| `PipelineAnswers.Routes` | autosentinel/agents/supervisor.py:44-66 | the run goes to infra_sre if and only if the reply names it with a non-empty rationale, and to code_fixer in all other cases, with the rationale on file |
| `PipelineAnswers.EdgeFollows` | autosentinel/multi_agent_graph.py:220-252 | the edge after the supervisor: a spent budget first, then the specialist on file, then the one for the category |
| `PipelineAnswers.DeliversAtOnce` | autosentinel/agents/_producer_contract.py:57-70 | a first reply that compiles once its fence is off is delivered with one call; another exception of the compiler ends the run |
| `PipelineAnswers.AsksOnceMore` | autosentinel/agents/_producer_contract.py:68-77 | a first reply with a syntax error is asked for again; the second reply is delivered with its fence off, after two calls, whether it compiles or not; a second call over the limit or a provider error ends the run as anywhere |
| `PipelineAnswers.HeldForItsWords` | autosentinel/agents/security_reviewer.py:54-108 | review and gate: the verdict on file is HIGH_RISK for an artifact with one of the words or a provider that failed, else the one the reply names, else CAUTION; HIGH_RISK suspends the run and any other verdict sends it to the verifier, with one call and these events |
| `PipelineAnswers.WordsDecide` | autosentinel/agents/security_reviewer.py:96-102 | if the model says SAFE or CAUTION, the run is suspended exactly if the artifact has one of the eight destructive operations or, folded, one of the fifteen secret words, each written out, and otherwise goes to the verifier with the verdict of the model |
| `PipelineAnswers.HighRiskIff` | autosentinel/agents/security_reviewer.py:79-102 | a verdict is filed for every reply and every provider failure, and it is HIGH_RISK exactly for a word, a failure or a reply that says so |
| `PipelineAnswers.VerifiesAndReports` | autosentinel/nodes/format_report.py:196-229 | what the verifier reports goes on file as it is, the findings stay, and the caller gets the path of the report |
| `PipelineAnswers.CallFails` | autosentinel/multi_agent_graph.py:108-126 | at every calling node a call over the limit sets the flag and nothing else and goes to the abort node; a provider error ends the run except at the reviewer, any other exception everywhere |
| `PipelineAnswers.NothingIsAsked` | autosentinel/llm/protocol.py:53-60 | under a malformed trace id a run ends at its first call without a request |
| `PipelineAnswers.OverspendingEnds` | autosentinel/multi_agent_graph.py:94-105 | after a call over the limit the run notes the guard's total of that moment, marks the trace, keeps what it had found and returns no path |
| `PipelineAnswers.TraceIdIff` | autosentinel/llm/protocol.py:20 | a trace id is 32 characters of 0123456789abcdef |
| `WholeRun.StraightThrough` | autosentinel/multi_agent_graph.py:228-275 | from alert to report in terms of the answers: parsed log, answers within the budget, one retry for a syntax error, none of the words, a verdict other than HIGH_RISK and a container that runs through give one call an answer, a run of exactly the accepted form of the artifact, its exit status and logs on file, and the path |
| `WholeRun.HeldThenResumed` | autosentinel/multi_agent_graph.py:181-191 | the same with HIGH_RISK: the run is suspended before anything of it has run and, resumed at any time, runs the artifact that was reviewed and returns the path |
| `WorldSafety.VerifiedOnlyAfterReview` | autosentinel/multi_agent_graph.py:242-271 | in every history of runs, interleavings, restarts and resumptions the verifier is only given an artifact that was reviewed, after a suspension and a later resumption if the verdict was HIGH_RISK, and a container only runs its accepted form |
| `WorldSafety.FlaggedCodeOnlyAfterApproval` | autosentinel/agents/security_reviewer.py:93-102 | if the very code a container ran has one of the 23 words, its artifact had been given HIGH_RISK and the thread suspended and resumed before, whatever the model said |
| `WorldReviews.VerifiedIsTheReviewed` | autosentinel/multi_agent_graph.py:253-271 | a thread is reviewed at most once, before it is verified, on the artifact that is verified |
| `WorldResume.HeldSurvivesRestart` | autosentinel/multi_agent_graph.py:139-191 | with a durable store a fix held at the gate is run after a restart and an approval, by another process and at no cost to its budget; without one the approval finds nothing to resume |
| `WorldResume.ResumedGoesThrough` | autosentinel/api/main.py:182-195 | a resumed run that nothing goes wrong with takes three steps: it is parked no more, the verifier runs on its artifact, the report is written |
| `WorldBudget.OvershootAtMostOneCallPerRun` | autosentinel/llm/cost_guard.py:67-89 | with calls of at most c the total never exceeds the budget by more than c for each run begun since the process started, in any interleaving; resumptions add nothing |
| `WorldBudget.StartsAreBegun` | autosentinel/llm/cost_guard.py:67-89 | the runs counted are those begun since the last restart, and a resumed run makes no calls and never carries the budget flag |
| `WorldBudget.OvershootIsAttained` | autosentinel/llm/cost_guard.py:75-89 | for every number of runs begun there is a history that attains that bound exactly |
| `WorldBudget.StepSpends` | autosentinel/llm/ark_client.py:156-172 | a step adds at most one call's cost to the guard, and unless it trips leaves the total unchanged or within the limit |
| `CostGuard.CostGuard.constructor` | autosentinel/llm/cost_guard.py:47-49 | a new guard has spent nothing |
| `CostGuard.CostGuard.Snapshot` | autosentinel/llm/cost_guard.py:51-55 | a snapshot is the state at that moment and is not reached by later spending |
| `CostGuard.CostGuard.Accumulate` | autosentinel/llm/cost_guard.py:57-89 | total, count and time stamp are updated before the limit is looked at; the budget error, with the new total in it, is raised exactly when that is over the limit; exactly a foreign currency is refused and changes nothing |
| `CostGuard.CostGuard.ResetForTest` | autosentinel/llm/cost_guard.py:91-105 | total and count are cleared under test only, the limit never |
| `GuardThreads.EveryInterleavingIsSerial` | autosentinel/llm/cost_guard.py:51-89 | with accumulate split into its currency check, its reads, its write and its answer, the state in every interleaving is that of the operations one at a time, each thread is answered as at its place in that order, and takes effect once |
| `GuardThreads.TotalIsSumOfAccepted` | autosentinel/llm/cost_guard.py:67-82 | the total is the sum of the accepted costs and the count their number; costs in another currency count for nothing |
| `GuardThreads.SnapshotIsPrefix` | autosentinel/llm/cost_guard.py:51-55 | a snapshot's total and count belong to one prefix of the accepted calls |
| `GuardThreads.FinalTotalIgnoresSchedule` | autosentinel/llm/cost_guard.py:67-82 | once all threads have finished, the total is the plain sum of the costs, whatever the schedule was |
| `GuardThreads.OrderRespectsRealTime` | autosentinel/llm/cost_guard.py:67-89 | a call that had returned before another began takes effect before it |
| `GuardSingleton.AllCallersShareOneGuard` | autosentinel/llm/cost_guard.py:108-125 | in every interleaving of double-checked lookups at most one guard is built and all callers hold it |
| `GuardSingleton.LookupNeverStalls` | autosentinel/llm/cost_guard.py:117-125 | while some caller has no guard yet, some caller can move |
| `WrapperSemantics.WrappedDoesTheMeaning` | autosentinel/agents/_artifact_normalizer.py:23-34 | the wrapped form, run by next-by-next generator steps, reaches exactly the results of the body up to its first executed return with yields as no-ops, followed, when the body has no yield, by the drain of the returned object, which may act, raise or never end |
| `WrapperSemantics.WrappingPreservesMeaningIff` | autosentinel/agents/_artifact_normalizer.py:23-34 | wrapped form and fragment reach the same results, uncaught exceptions and divergence included, if and only if the fragment has a yield or never returns an object whose drain is anything but a silent normal end |
| `WrapperSemantics.SafeToWrap` | autosentinel/agents/_artifact_normalizer.py:76-87 | fragments that mention yield, and fragments that return plain values only, are preserved |
| `WrapperSemantics.WrappingCanAddEffects` | autosentinel/agents/_artifact_normalizer.py:30-33 | returning a generator with one effect: the wrapped form performs it, the fragment does not |
| `WrapperSemantics.WrappingCanRaise` | autosentinel/agents/_artifact_normalizer.py:30-33 | returning a generator that raises, or a coroutine: the wrapped form dies |
| `WrapperSemantics.WrappingCanHang` | autosentinel/agents/_artifact_normalizer.py:30-33 | returning a generator without end: the wrapped form never ends |
| `WrapperSemantics.ThroughIsStable` | autosentinel/agents/_artifact_normalizer.py:30-33 | how a generator ends does not depend on the number of steps allowed for it |
| `Normalizer.RunnableCompiles` | autosentinel/agents/_artifact_normalizer.py:59-87 | a rejected artifact leaves no code and a reason, an accepted one compiles, has none, and is the artifact or its wrapped form |
| `Normalizer.OutcomeIff` | autosentinel/agents/_artifact_normalizer.py:69-87 | verbatim if and only if the artifact is not blank and compiles; wrapped if and only if its error is a syntax error with one of the two symptoms and the wrapped form compiles; rejected if and only if it is blank or one of the two texts has another syntax error, each with its reason; other exceptions of the compiler pass through |
| `Normalizer.TemplateIs` | autosentinel/agents/_artifact_normalizer.py:26-34 | the wrapped text, written out, around the indented artifact |
| `Text.IndentsEachLine` | autosentinel/agents/_artifact_normalizer.py:81 | indentation, line by line for every kind of line end: four blanks before each line that is not blank, and nothing else |
| `Normalizer.NormalizeTwice` | autosentinel/agents/_artifact_normalizer.py:69-87 | accepted code is accepted verbatim when normalised again |
| `Fence.RoundTrip` | autosentinel/agents/_parsing.py:13-30 | fencing a payload with any allowed tag and padding, then stripping, returns the payload trimmed |
| `Fence.MatchIsLazyMatch` | autosentinel/agents/_parsing.py:13-16 | the matcher returns a group exactly when it is the shortest with which the pattern reads the whole text |
| `Fence.NoMatchMeansNoReading` | autosentinel/agents/_parsing.py:13-16 | there is no match exactly when the pattern reads the text in no way |
| `Fence.StripShrinks` | autosentinel/agents/_parsing.py:26-30 | the result is trimmed and never longer, and shorter by at least seven characters when a fence was found |
| `Fence.IdempotentIff` | autosentinel/agents/_parsing.py:19-30 | a second application changes nothing exactly when the text is not a fenced block or its payload, trimmed, is not one in turn |
| `Fence.UnfencedIsFixed` | autosentinel/agents/_parsing.py:26-30 | text without a fence is trimmed and then a fixed point |
| `Fence.NestedFenceNeedsTwo` | autosentinel/agents/_parsing.py:22-24 | only the outermost pair goes: a nested block survives one application intact |
| `Reviewer.ScanSurvivesNormalization` | autosentinel/agents/security_reviewer.py:93-102 | the scan fires on the code the sandbox runs exactly when it fires on the artifact reviewed, in both letter-case modes |
| `Reviewer.FiresIff` | autosentinel/agents/security_reviewer.py:24-43 | the scan fires if and only if the artifact has one of the eight destructive operations or its folded text one of the fifteen secret words |
| `Reviewer.WrapKeepsKeyword` | autosentinel/agents/_artifact_normalizer.py:26-34 | a keyword the template does not contain is in the indented, wrapped text exactly when it is in the artifact |
| `Reviewer.IndentKeepsKeyword` | autosentinel/agents/_artifact_normalizer.py:81 | indenting line by line neither makes nor breaks a keyword |
| `Verifier.Run` | autosentinel/agents/verifier.py:26-126 | the report is the specified outcome; a container exists exactly when code ran, was started with that code, and had its removal attempted once and its kill once per timeout on every path; a compiling artifact is started as it is, a wrappable fragment in its wrapped form, a refused one not at all |
| `Verifier.RunInner` | autosentinel/agents/verifier.py:78-113 | the wait, the log reads and the timeout handler end as specified, with one kill exactly on a read timeout and no removal |
| `Verifier.RunIsReported` | autosentinel/agents/verifier.py:78-113 | for an accepted artifact in a container: exit status and both logs when all were read, success for status 0 and failure otherwise; a bare timeout after a read timeout and a kill; else the error of the kill or the call; and an error of the clean-up before all of these |
| `Verifier.NothingRan` | autosentinel/agents/verifier.py:30-61 | no artifact is skipped, a refused one is a failure with the reason on its standard error, and a container that cannot be started is an error |
| `Verifier.OneOfResultAndError` | autosentinel/agents/verifier.py:84-120 | exactly one of result and error is set, and only compiled, accepted code runs |
| `Verifier.SuccessIff` | autosentinel/agents/verifier.py:79-97 | success is reported if and only if an accepted artifact ran to exit status 0 and neither log reads nor clean-up failed |
| `Checkpointers.Registry.Resolve` | autosentinel/multi_agent_graph.py:139-165 | an injected store wins, no DSN gives a new store each time, a DSN gives the same store each time once a connection has been set up; a connection is opened exactly if there is none for the DSN yet and it is not refused, and one whose setup raises is recorded nowhere |
| `Checkpointers.Registry.CloseOpenCheckpointers` | autosentinel/multi_agent_graph.py:46-56 | every recorded connection is closed exactly once and none stays cached; an unrecorded one is not touched |
| `Gateway.EventGateway.IngestAlert` | autosentinel/api/main.py:70-128 | an ill-formed id changes nothing; otherwise the alert is stored under the id and a job with that id and the path of that file joins the end of the queue |
| `Gateway.EventGateway.GetAlertStatus` | autosentinel/api/main.py:137-155 | sidecar first, then the incoming file, then not found |
| `Gateway.EventGateway.WriteFailedResult` | autosentinel/api/results.py:45-63 | one sidecar is replaced by a failed one and nothing else changes |
| `Gateway.EventGateway.RunPipeline` | autosentinel/api/queue.py:48-50 | the pipeline runs on the current job to its end, step by step as specified, and touches only that run, the sidecars and the checkpoints |
| `Gateway.EventGateway.WorkerTurn` | autosentinel/api/queue.py:33-90 | one job leaves the head of the queue, is started, run, closed and counted as done, whatever the outcome |
| `Gateway.EventGateway.Worker` | autosentinel/api/queue.py:32-90 | the waiting jobs are each started once in order of arrival and each marked done once, for every mix of outcomes |
| `Gateway.EventGateway.CloseJob` | autosentinel/api/queue.py:65-90 | a failure is filed exactly if the pipeline returned no path, with its exception or parse error, and the job is done either way |
| `Gateway.EventGateway.ResumeIncident` | autosentinel/api/main.py:182-195 | a run is resumed exactly when the thread is parked in suspension, from the gate on and with what it had found, and nothing else changes |
| `GatewayProofs.NotFoundIff` | autosentinel/api/main.py:137-155 | after any history an id is "not found" if and only if it was never accepted |
| `GatewayFiles.RunsReadOwnFile` | autosentinel/api/main.py:83-118 | after any history the worker's run and all suspended and resumed runs read the file stored for their id and call under that id, and the id was accepted |
| `GatewayRestart.LostJobStaysProcessing` | autosentinel/api/main.py:36-49 | a job that a restart catches without a result and without a durable suspension reads "processing" over every later history that does not submit it again |
| `GatewayRestart.RestartKeepsStoresOnly` | autosentinel/api/main.py:36-49 | only files, results and suspended runs outlive a process, and the next one starts with nothing spent and nothing to do |
| `GatewayProofs.NeverBackToProcessing` | autosentinel/api/main.py:137-154 | acceptance is for ever, and once a sidecar exists the job never shows "processing" again, restarts included |
| `GatewayProofs.FirstInFirstOut` | autosentinel/api/queue.py:32-90 | since the process started the jobs taken followed by the jobs waiting are the jobs that arrived, in order, and all those taken but the one at hand are done |
| `GatewayProofs.ClosingVerdict` | autosentinel/__init__.py:61-68 | a closed job reads "completed" if and only if its run finished within budget and without a parse error; suspended, aborted and crashed runs read "failed" |
| `GatewayProofs.OnlyReportsRevive` | autosentinel/nodes/format_report.py:175-193 | a job that reads "failed" changes exactly when a step files a report for it, and then reads "completed" |
| `GatewayProofs.FailedUntilReport` | autosentinel/api/main.py:137-148 | so over any history without such a step it goes on reading "failed" |
| `GatewayProofs.HistoryKeepsInv` | autosentinel/api/queue.py:32-90 | stores, queue, runs and the current job stay consistent over every history |
| `GatewayRace.CompletedIsLostIff` | autosentinel/api/queue.py:65-88 | with no id submitted twice, "completed" turns into "failed" if and only if the worker closes the job's own suspended run |
| `GatewayRace.OrderDecides` | autosentinel/api/main.py:182-195 | from any state with a run just suspended, closing before the resumption leaves "completed" and closing after it leaves "failed" |
| `GatewayRace.GateParks` | autosentinel/multi_agent_graph.py:181-191 | with a durable store every HIGH_RISK run of the worker reaches such a state |
| `GatewayWitness.CompletedThenFailed` | autosentinel/api/queue.py:65-88 | a history from an empty gateway, for any host that compiles some fix, after which an id submitted once reads "completed" and the worker's closing makes it read "failed" |
| `GatewayBudget.IsolationIff` | autosentinel/api/queue.py:32-90 | leaving out all actions about other ids leaves everything on file and at work for an id as it was, at every moment, if and only if the shared guard gives each of its own steps the verdict it would have given without them |
| `GatewayIsolation.SameStepIff` | autosentinel/llm/cost_guard.py:67-89 | a step has the same effect on a run under two guards if and only if its call trips under both or neither and an aborting run finds the same total |
| `GatewayBudget.IsolationWithinBudget` | autosentinel/llm/cost_guard.py:83-89 | the condition holds for every history in which the total never passes the limit, the others' failures, suspensions and resumptions notwithstanding |
| `GatewayWitness.BudgetCouplesJobs` | autosentinel/llm/cost_guard.py:75-89 | beyond the limit it fails: a job that spends the limit exactly makes another job read "failed" that without it would read "processing" |
| `GatewayBudget.StatusIsPerJob` | autosentinel/api/main.py:130-155 | two histories within budget with the same actions about an id show the same status for it |
| `Search.SearchIncidents` | autosentinel/api/results.py:76-129 | the loop, the in-place sort and the cut give the first clamp(limit) of the ranked matches: only files with a word of the query in one of the six fields are shown, with their id, title and resolution, as many as there are or the limit allows, and none is missing if the limit is not reached |
| `Search.Clamp` | autosentinel/api/results.py:84 | the limit is kept when it is in 1..50 and otherwise becomes the nearer end |
| `Search.HitIff` | autosentinel/api/results.py:90-115 | a file is a match if and only if it parses and a term is in one of its folded fields, the stored alert's two included, and its score is the number of pairs of a term and a field that holds it |
| `Search.ScoreCounts` | autosentinel/api/results.py:111-113 | the score is the cardinality of the set of such pairs |
| `Search.WordsAreRuns` | autosentinel/api/results.py:85 | the terms are the maximal runs of characters of the folded query that are not blank |
| `Search.WordsOf` | autosentinel/api/results.py:85 | in their order, and each as often as it occurs |
| `Search.BestAreMatches` | autosentinel/api/results.py:87-129 | the answer is a prefix of the ranked matches of the clamped length, and nothing but matches is ranked, each as often as a file gives it |
| `Search.BestOutranksTheRest` | autosentinel/api/results.py:125-129 | every result has more pairs than the next, or as many and the smaller id, and no omitted match comes before a returned one |
| `Search.TiesKeepFileOrder` | autosentinel/api/results.py:125 | matches with the same score and the same id, and only those, are tied and stay in file order |
| `Text.StringLeIff` | autosentinel/api/results.py:125 | ids are compared as texts: a prefix comes first, and otherwise the smaller character where they first differ |
| `Search.SmallerLimitIsPrefix` | autosentinel/api/results.py:84-129 | a smaller limit gives a prefix of what a larger one gives |
| `Search.FileOrderIsMoot` | autosentinel/api/results.py:88 | when matches have distinct ids the order of the files does not matter |
| `Routing.Validate` | autosentinel/llm/factory.py:65-85 | validation succeeds exactly when no model is listed twice and every agent's model is listed; then each alias is that of the one endpoint serving the model, and aliases that were right stay |
| `Routing.CollectOwners` | autosentinel/llm/factory.py:69-77 | the nested loops build the ownership map of all listings or stop at a model listed twice |
| `Routing.Backfill` | autosentinel/llm/factory.py:78-84 | every agent gets the alias that owns its model, or the first undeclared one is named |
| `Routing.ServedByOne` | autosentinel/llm/factory.py:67-68 | with no model listed twice the endpoint serving a model is unique |
| `Routing.OrderIsMoot` | autosentinel/llm/factory.py:70-84 | success and aliases do not depend on the order of the endpoints |
| `Routing.LookupCannotFail` | autosentinel/llm/factory.py:170-171 | after validation the endpoint of every agent is found by its alias and serves its model |
| `Routing.BuildClientForAgent` | autosentinel/llm/factory.py:162-184 | a client is refused exactly for an unknown agent, then for a missing key, then for an alias without a client; one that is built has the agent's alias and model and the key of the endpoint that serves it |
| `Percentile.WithinRange` | scripts/run_benchmark.py:53-65 | the percentile lies between two values of the list |
| `Percentile.NearestToWeightedMean` | scripts/run_benchmark.py:60-65 | for any ascending rearrangement of the list: if pct hundredths of the way from its first to its last value lie a fraction t of the way from the j-th to the next, it is the integer nearest to the mean of those two, weighted 1 - t and t, the even one on a tie |
| `Percentile.PlaceExists` | scripts/run_benchmark.py:60-62 | below 100 there are always such a j and t |
| `Percentile.FewValues` | scripts/run_benchmark.py:55-59 | an empty list has percentile 0 and a single value is all its percentiles |
| `Percentile.RoundIsNearest` | scripts/run_benchmark.py:65 | rounding gives the nearest integer and, of two equally near, the even one, and nothing else does |
| `Percentile.Extremes` | scripts/run_benchmark.py:53-65 | it is the least value at 0 and the greatest at 100 |
| `Percentile.MonotoneInPercentage` | scripts/run_benchmark.py:60-65 | it never falls as the percentage rises |
| `Percentile.IgnoresOrder` | scripts/run_benchmark.py:57 | it does not depend on the order of the list |
| `Percentile.RisesWithValues` | scripts/run_benchmark.py:53-65 | it never falls when any values of the list are raised |
| `Ledger.Invoke` | scripts/run_benchmark.py:159-161 | an invocation steps a run to the end of its segment on the shared guard |
| `Ledger.RunV2` | scripts/run_benchmark.py:126-201 | one scenario is played, resumed once if it was suspended, and booked or turned into the budget error as specified, with the guard left as the runs left it |
| `Ledger.RunBenchmark` | scripts/run_benchmark.py:204-284 | a fresh guard, scenario after scenario, and either the books and their summary or the error of the aborting scenario |
| `Ledger.Summarise` | scripts/run_benchmark.py:239-251 | passed rows, total cost and false negatives are those of the books |
| `LedgerProofs.BooksBalance` | scripts/run_benchmark.py:155-175 | rows are in scenario order with costs of at least 0 whose sum is what the guard's total grew by; a benchmark that completes has one row a scenario and ends within budget; it stops if and only if the total passes the limit |
| `LedgerProofs.AbortIsFirstOverrun` | scripts/run_benchmark.py:168-175 | the aborting scenario is the first over the limit, it alone accounts for the spending not booked, and the total is at most one call over |
| `LedgerProofs.PlayKeepsTab` | scripts/run_benchmark.py:158-169 | the state a scenario returns shows a tripped budget if and only if the guard is over the limit, also when a resumption raised |
| `LedgerProofs.PassedIsEarned` | scripts/run_benchmark.py:181-190 | a scenario passes only if in its own run a report was written, the gate was passed, and the verifier was observed running the accepted form of the artifact in a container on an input with exit status 0 |
| `LedgerPass.PassedIff` | scripts/run_benchmark.py:181-190 | a scenario passes if and only if, in its own run and its resumption, the verifier was observed running the fix to exit status 0 with logs and clean-up in order, and a report was observed to be written |
| `LedgerPass.SummaryCountsFixes` | scripts/run_benchmark.py:239-241 | in a benchmark that completes, the number of passed scenarios is the number of those |
| `LedgerPass.PlayedToTheEnd` | scripts/run_benchmark.py:158-167 | a scenario that raised nothing is booked with the end state of a finished run, never with a run that is still held |
| `LedgerPass.RaisedIsTold` | scripts/run_benchmark.py:157-164 | an exception on the books is that of the last segment played; a resumption that raises leaves the suspended state as the result |
| `LedgerPass.ScenarioReadsOwnLog` | scripts/run_benchmark.py:126-161 | that run reads the scenario's own log under the trace id of the row |
| `LedgerPass.RowShows` | scripts/run_benchmark.py:191-200 | a row shows the category, at most the first 200 characters of the artifact and the exception, with marks for what is missing |
| `LedgerProofs.EveryRowIsEarned` | scripts/run_benchmark.py:191-201 | every row of the books is that of its own scenario's run on the guard its predecessors left, and passes only if the fix worked in that run |
| `LedgerProofs.VerdictsAreOwn` | scripts/run_benchmark.py:232-237 | with distinct ids the verdict on the sheet for a scenario is that of its own run |
| `LedgerProofs.FalseNegativeIff` | scripts/run_benchmark.py:246-251 | in a benchmark that completes, a scenario is listed as a false negative if and only if it is a HIGH_RISK security scenario whose own run did not end in HIGH_RISK |

## Left out

- LangGraph, Postgres, FastAPI, Docker, the OpenAI SDK, tenacity and Langfuse: each is a step with an arbitrary allowed outcome.
- The second provider client: it accounts for a call in the same way as the first one.
- The host language's grammar and compiler: an arbitrary classification of a text as compiling, failing with a syntax error, or failing otherwise.
- `WrapperSemantics.WrappingPreservesMeaningIff`: does not model multi-line string literals, which indentation changes, nor the change from module scope to function scope.
- JSON parsing, log files, prompts, report markdown, logging, tracing, clocks, latencies and the category, severity and risk tables of the report.
- Floating-point pricing and rounding: amounts are exact integers, percentages and weights exact reals.
- `Percentile.WithinRange`: percentages outside 0 to 100, which no caller passes.
- `Reviewer.ScanSurvivesNormalization`: letters are folded one by one, so the rule for a Greek sigma at the end of a word is not modelled.
- `Search.SearchIncidents`: does not model a stored alert that is no JSON, on which the endpoint raises.
- `LedgerPass.RowShows`: does not model the name of the exception's type, which the source puts before its message.
- `GatewayProofs.ClosingVerdict`: store writes are assumed to succeed, and an incoming file to stay in place until its job is taken; a write error of format_report is modelled as an uncaught exception of the run.
- `Gateway.EventGateway.Worker`: the method is the loop with nothing else going on; interleavings with requests and restarts are in the histories of `Gateway.Act`, and the graceful cancellation of the worker is not modelled.
- `Gateway.EventGateway.ResumeIncident`: does not model which threads the endpoint answers with 404, since a durable store also has values for threads that are not suspended.
- `Verifier.Run`: does not model a container that was created and then failed to start, which the code never learns of and does not remove; an error of the start counts as no container.
- Reuse of a thread id that already has a durable checkpoint, where channels not in the input keep old values, and resumption of a thread that is not suspended: both depend on library behaviour. The queue and status results that do not look into a run hold for repeated ids as well.
- The channels analysis_result, analysis_error, fix_script and security_classifier_model, which no modelled step branches on.
- `Routing.Validate`: temperature, token limits and URLs of the configuration are not modelled.
- `Checkpointers.Registry.Resolve`: concurrent first calls with the same DSN, which no lock orders.
- Category distribution, rates, run ids and output files of the benchmark, its mock agents, and the older runner autosentinel/benchmark.py.
