/** The incident pipeline: nodes that map a state to a partial update, edges between
    them, and one step of a run. Everything outside the process is an input. */
module Pipeline {
  import opened Prelude
  import opened Json
  import CostGuard
  import Fence
  import Normalizer
  import Reviewer
  import Text
  import Verifier

  // ------------------------------------------------------------------- state

  datatype ErrorLog = ErrorLog(
    timestamp: string,
    serviceName: string,
    errorType: string,
    message: string,
    stackTrace: Option<string>)

  datatype Entry =
    | DiagnosisAgent
    | SupervisorAgent
    | CodeFixerAgent
    | InfraSREAgent
    | SecurityReviewerAgent
    | VerifierAgent
    | CostGuardTriggered

  datatype AgentState = AgentState(
    logPath: string,
    errorLog: Option<ErrorLog>,
    parseError: Option<string>,
    traceId: Option<string>,
    errorCategory: Option<string>,
    specialist: Option<string>,
    routingDecision: Option<string>,
    fixArtifact: Option<string>,
    securityVerdict: Option<Reviewer.Verdict>,
    approvalRequired: bool,
    executionResult: Option<Verifier.ExecutionResult>,
    executionError: Option<string>,
    fixNormalization: Option<Verifier.Normalization>,
    reportText: Option<string>,
    reportPath: Option<string>,
    costAccumulated: Option<int>,
    costExhausted: bool,
    agentTrace: seq<Entry>)

  function FreshState(logPath: string, traceId: Option<string>): AgentState {
    AgentState(logPath, None, None, traceId, None, None, None, None, None, false,
               None, None, None, None, None, None, false, [])
  }

  datatype Channel<+T> = Keep | Set(value: T) {
    function Over(old_: T): T {
      if Set? then value else old_
    }
  }

  /** A partial update: channels not mentioned are kept. */
  datatype Update = Update(
    nameonly errorLog: Channel<Option<ErrorLog>> := Keep,
    nameonly parseError: Channel<Option<string>> := Keep,
    nameonly traceId: Channel<Option<string>> := Keep,
    nameonly errorCategory: Channel<Option<string>> := Keep,
    nameonly specialist: Channel<Option<string>> := Keep,
    nameonly routingDecision: Channel<Option<string>> := Keep,
    nameonly fixArtifact: Channel<Option<string>> := Keep,
    nameonly securityVerdict: Channel<Option<Reviewer.Verdict>> := Keep,
    nameonly approvalRequired: Channel<bool> := Keep,
    nameonly executionResult: Channel<Option<Verifier.ExecutionResult>> := Keep,
    nameonly executionError: Channel<Option<string>> := Keep,
    nameonly fixNormalization: Channel<Option<Verifier.Normalization>> := Keep,
    nameonly reportText: Channel<Option<string>> := Keep,
    nameonly reportPath: Channel<Option<string>> := Keep,
    nameonly costAccumulated: Channel<Option<int>> := Keep,
    nameonly costExhausted: Channel<bool> := Keep,
    nameonly agentTrace: seq<Entry> := [])

  /** The trace is appended to; every other channel is overwritten. */
  function Merge(s: AgentState, u: Update): AgentState {
    AgentState(
      s.logPath,
      u.errorLog.Over(s.errorLog),
      u.parseError.Over(s.parseError),
      u.traceId.Over(s.traceId),
      u.errorCategory.Over(s.errorCategory),
      u.specialist.Over(s.specialist),
      u.routingDecision.Over(s.routingDecision),
      u.fixArtifact.Over(s.fixArtifact),
      u.securityVerdict.Over(s.securityVerdict),
      u.approvalRequired.Over(s.approvalRequired),
      u.executionResult.Over(s.executionResult),
      u.executionError.Over(s.executionError),
      u.fixNormalization.Over(s.fixNormalization),
      u.reportText.Over(s.reportText),
      u.reportPath.Over(s.reportPath),
      u.costAccumulated.Over(s.costAccumulated),
      u.costExhausted.Over(s.costExhausted),
      s.agentTrace + u.agentTrace)
  }

  // ------------------------------------------------------------------ inputs

  /** The host language's own functions. */
  datatype Host = Host(compile: Normalizer.Compiler, decode: string -> JsonDoc, low: Text.Folding)

  datatype LogFile =
    | Missing
    | NotJson(detail: string)
    | Lacks(fields: string)
    | Unreadable(detail: string)
    | Parsed(log: ErrorLog)

  /** One request to a model provider. */
  datatype Attempt =
    | Answered(content: string, cost: int)
    | TimedOut
    | Refused(message: string)
    | Broke(message: string)

  datatype ReportWrite = Written(text: string, path: string) | WriteFailed(message: string)

  /** What the world does during one step; each node looks at its own part. */
  datatype Input = Input(
    token: string,
    file: LogFile,
    first: Attempt,
    second: Attempt,
    now: int,
    sandbox: Verifier.Sandbox,
    report: ReportWrite)

  // ---------------------------------------------------------- one model call

  predicate IsTraceId(s: string) {
    |s| == 32 && forall i | 0 <= i < |s| :: '0' <= s[i] <= '9' || 'a' <= s[i] <= 'f'
  }

  /** How complete() ends. Failed is a typed timeout or provider error. */
  datatype CallEnd = Answer(content: string) | OverBudget | Failed(message: string) | Blew(message: string)

  datatype Call = Call(end: CallEnd, guard: CostGuard.GuardState, attempts: nat)

  function Conclude(g: CostGuard.GuardState, attempt: Attempt, now: int, attempts: nat): Call {
    match attempt
    case TimedOut => Call(Failed("request timed out"), g, attempts)
    case Refused(message) => Call(Failed(message), g, attempts)
    case Broke(message) => Call(Blew(message), g, attempts)
    case Answered(content, cost) =>
      if cost < 0 then Call(Blew("invalid response"), g, attempts)
      else
        var end := match CostGuard.Judge(g, cost, CostGuard.CNY)
                   case Accepted => Answer(content)
                   case OverBudget(_, _, _, _) => CallEnd.OverBudget
                   case WrongCurrency => Blew("currency mismatch");
        Call(end, CostGuard.After(g, cost, CostGuard.CNY, now), attempts)
  }

  /** Check the trace id, send the request, once more after a timeout, and account for
      a response exactly once. */
  function Complete(g: CostGuard.GuardState, traceId: Option<string>, i: Input): Call {
    if !IsTraceId(traceId.GetOr("")) then Call(Blew("malformed trace id"), g, 0)
    else if i.first.TimedOut? then Conclude(g, i.second, i.now, 2)
    else Conclude(g, i.first, i.now, 1)
  }

  // ------------------------------------------------------------------- nodes

  datatype Node =
    | Dispatch
    | ParseLog
    | Diagnosis
    | Supervisor
    | CodeFixer
    | InfraSre
    | SecurityReviewer
    | SecurityGate
    | Verification
    | FormatReport
    | CostExhausted

  /** What the outside can observe of a run. */
  datatype Event =
    | Called(attempts: nat)
    | Tripped
    | Reviewed(artifact: Option<string>, verdict: Reviewer.Verdict)
    | Paused
    | Resumed
    | Verified(artifact: Option<string>, ran: Option<string>)
    | Reported(path: string)

  datatype NodeEnd = Commit(update: Update) | Interrupt | Raise(message: string) | CallAgain(first: string)

  datatype NodeRun = NodeRun(end: NodeEnd, guard: CostGuard.GuardState, events: seq<Event>)

  function CallEvents(call: Call): seq<Event> {
    if call.attempts == 0 then []
    else if call.end.OverBudget? then [Called(call.attempts), Tripped]
    else [Called(call.attempts)]
  }

  /** _guarded turns a budget error into a flag; other exceptions pass through. */
  const BUDGET_FLAG := Update(costExhausted := Set(true))

  function RunDispatch(s: AgentState, i: Input): NodeEnd {
    Commit(if s.traceId.GetOr("") == "" then Update(traceId := Set(Some(i.token))) else Update())
  }

  function ParseFailure(message: string): NodeEnd {
    Commit(Update(errorLog := Set(None), parseError := Set(Some(message))))
  }

  function RunParseLog(s: AgentState, i: Input): NodeEnd {
    match i.file
    case Missing => ParseFailure("Log file not found: " + s.logPath)
    case NotJson(detail) => ParseFailure("Invalid JSON in " + detail)
    case Lacks(fields) => ParseFailure("Missing required fields in " + fields)
    case Unreadable(detail) => Raise(detail)
    case Parsed(log) => Commit(Update(errorLog := Set(Some(log)), parseError := Set(None)))
  }

  const CATEGORIES := ["CODE", "INFRA", "CONFIG", "SECURITY"]

  function ParseCategory(reply: JsonDoc): string {
    match reply.Field("category")
    case Some(JString(name)) => if name in CATEGORIES then name else "CODE"
    case _ => "CODE"
  }

  function RunDiagnosis(h: Host, s: AgentState, g: CostGuard.GuardState, i: Input): NodeRun {
    var call := Complete(g, s.traceId, i);
    var end := match call.end
               case Answer(content) =>
                 Commit(Update(errorCategory := Set(Some(ParseCategory(h.decode(content)))),
                               agentTrace := [DiagnosisAgent]))
               case OverBudget => Commit(BUDGET_FLAG)
               case Failed(message) => Raise(message)
               case Blew(message) => Raise(message);
    NodeRun(end, call.guard, CallEvents(call))
  }

  const CODE_FIXER := "code_fixer"
  const INFRA_SRE := "infra_sre"
  const COST_EXHAUSTED := "cost_exhausted"

  /** The routing fallback: (specialist, rationale). */
  function ParseRouting(reply: JsonDoc): (string, string) {
    match (reply.Field("specialist"), reply.Field("rationale"))
    case (Some(JString(name)), Some(JString(rationale))) =>
      if (name == CODE_FIXER || name == INFRA_SRE) && rationale != "" then (name, rationale)
      else (CODE_FIXER, "fallback to code_fixer")
    case _ => (CODE_FIXER, "fallback to code_fixer")
  }

  function SpecialistKey(category: Option<string>): string {
    if category == Some("INFRA") || category == Some("CONFIG") then INFRA_SRE else CODE_FIXER
  }

  function RunSupervisor(h: Host, s: AgentState, g: CostGuard.GuardState, i: Input): NodeRun {
    var call := Complete(g, s.traceId, i);
    var end := match call.end
               case Answer(content) =>
                 var (name, rationale) := ParseRouting(h.decode(content));
                 Commit(Update(specialist := Set(Some(name)), routingDecision := Set(Some(rationale)),
                               agentTrace := [SupervisorAgent]))
               case OverBudget => Commit(BUDGET_FLAG)
               case Failed(message) => Raise(message)
               case Blew(message) => Raise(message);
    NodeRun(end, call.guard, CallEvents(call))
  }

  function SpecialistEntry(node: Node): Entry {
    if node == InfraSre then InfraSREAgent else CodeFixerAgent
  }

  function Deliver(node: Node, artifact: string): NodeEnd {
    Commit(Update(fixArtifact := Set(Some(artifact)), agentTrace := [SpecialistEntry(node)]))
  }

  /** The first call of a specialist: deliver what compiles, ask again on a syntax error. */
  function RunSpecialist(h: Host, node: Node, s: AgentState, g: CostGuard.GuardState, i: Input): NodeRun {
    var call := Complete(g, s.traceId, i);
    var end := match call.end
               case Answer(content) =>
                 var artifact := Fence.StripMarkdownFence(content);
                 (match h.compile(artifact)
                  case Compiles => Deliver(node, artifact)
                  case SyntaxError(_) => CallAgain(artifact)
                  case OtherError(message) => Raise(message))
               case OverBudget => Commit(BUDGET_FLAG)
               case Failed(message) => Raise(message)
               case Blew(message) => Raise(message);
    NodeRun(end, call.guard, CallEvents(call))
  }

  /** The one retry: deliver whatever comes back. */
  function RunRetry(node: Node, s: AgentState, g: CostGuard.GuardState, i: Input): NodeRun {
    var call := Complete(g, s.traceId, i);
    var end := match call.end
               case Answer(content) => Deliver(node, Fence.StripMarkdownFence(content))
               case OverBudget => Commit(BUDGET_FLAG)
               case Failed(message) => Raise(message)
               case Blew(message) => Raise(message);
    NodeRun(end, call.guard, CallEvents(call))
  }

  /** A model that fails is read as HIGH_RISK; the scan has the last word. */
  function RunReviewer(h: Host, s: AgentState, g: CostGuard.GuardState, i: Input): NodeRun {
    var call := Complete(g, s.traceId, i);
    var artifact := s.fixArtifact.GetOr("");
    match call.end
    case OverBudget => NodeRun(Commit(BUDGET_FLAG), call.guard, CallEvents(call))
    case Blew(message) => NodeRun(Raise(message), call.guard, CallEvents(call))
    case _ =>
      var opinion := if call.end.Answer? then Reviewer.ParseVerdict(h.decode(call.end.content))
                     else Reviewer.HighRisk;
      var verdict := Reviewer.FinalVerdict(h.low, artifact, opinion);
      NodeRun(Commit(Update(securityVerdict := Set(Some(verdict)), agentTrace := [SecurityReviewerAgent])),
              call.guard, CallEvents(call) + [Reviewed(s.fixArtifact, verdict)])
  }

  /** The value given on resumption is not looked at. */
  function RunGate(s: AgentState, approved: bool): NodeEnd {
    var required := s.securityVerdict == Some(Reviewer.HighRisk);
    if required && !approved then Interrupt
    else Commit(Update(approvalRequired := Set(required)))
  }

  function RunVerifier(h: Host, s: AgentState, g: CostGuard.GuardState, i: Input): NodeRun {
    match Verifier.Outcome(h.compile, s.fixArtifact, i.sandbox)
    case Escaped(message) => NodeRun(Raise(message), g, [])
    case Report(result, error, normalization, ran) =>
      var update := Update(executionResult := Set(result), executionError := Set(error),
                           fixNormalization := if normalization.Some? then Set(normalization) else Keep,
                           agentTrace := [VerifierAgent]);
      NodeRun(Commit(update), g, [Verified(s.fixArtifact, ran)])
  }

  function RunReport(s: AgentState, g: CostGuard.GuardState, i: Input): NodeRun {
    if s.errorLog.None? then NodeRun(Raise("no error log"), g, [])
    else
      match i.report
      case WriteFailed(message) => NodeRun(Raise(message), g, [])
      case Written(text, path) =>
        NodeRun(Commit(Update(reportText := Set(Some(text)), reportPath := Set(Some(path)))), g,
                [Reported(path)])
  }

  function RunNode(h: Host, node: Node, approved: bool, s: AgentState, g: CostGuard.GuardState, i: Input)
    : NodeRun
  {
    match node
    case Dispatch => NodeRun(RunDispatch(s, i), g, [])
    case ParseLog => NodeRun(RunParseLog(s, i), g, [])
    case Diagnosis => RunDiagnosis(h, s, g, i)
    case Supervisor => RunSupervisor(h, s, g, i)
    case CodeFixer => RunSpecialist(h, CodeFixer, s, g, i)
    case InfraSre => RunSpecialist(h, InfraSre, s, g, i)
    case SecurityReviewer => RunReviewer(h, s, g, i)
    case SecurityGate => NodeRun(RunGate(s, approved), g, [])
    case Verification => RunVerifier(h, s, g, i)
    case FormatReport => RunReport(s, g, i)
    case CostExhausted =>
      NodeRun(Commit(Update(costAccumulated := Set(Some(g.totalSpent)), agentTrace := [CostGuardTriggered])),
              g, [])
  }

  // ------------------------------------------------------------------- edges

  datatype Phase =
    | At(node: Node)
    | Retrying(node: Node, first: string)
    | Suspended
    | Finished
    | Crashed(message: string)
  {
    predicate Active() { At? || Retrying? }
  }

  const SPECIALIST_EDGES: map<string, Node> :=
    map[COST_EXHAUSTED := CostExhausted, CODE_FIXER := CodeFixer, INFRA_SRE := InfraSre]

  function RouteToSpecialist(s: AgentState): string {
    if s.costExhausted then COST_EXHAUSTED
    else if s.specialist.GetOr("") != "" then s.specialist.value
    else SpecialistKey(s.errorCategory)
  }

  function OrCostExhausted(s: AgentState, next: Node): Phase {
    At(if s.costExhausted then CostExhausted else next)
  }

  /** Where the graph goes after `node` has committed. A router key without an edge
      would be an uncaught error. */
  function Successor(node: Node, s: AgentState): Phase {
    match node
    case Dispatch => At(ParseLog)
    case ParseLog => if s.parseError.GetOr("") != "" then Finished else At(Diagnosis)
    case Diagnosis => OrCostExhausted(s, Supervisor)
    case Supervisor =>
      var key := RouteToSpecialist(s);
      if key in SPECIALIST_EDGES then At(SPECIALIST_EDGES[key]) else Crashed("no edge for " + key)
    case CodeFixer => OrCostExhausted(s, SecurityReviewer)
    case InfraSre => OrCostExhausted(s, SecurityReviewer)
    case SecurityReviewer => OrCostExhausted(s, SecurityGate)
    case SecurityGate => At(Verification)
    case Verification => At(FormatReport)
    case FormatReport => Finished
    case CostExhausted => Finished
  }

  // ---------------------------------------------------------------- one step

  /** `approved` says that the gate's interrupt has been given a value. */
  datatype Run = Run(thread: string, phase: Phase, state: AgentState, approved: bool)

  datatype Stepped = Stepped(run: Run, guard: CostGuard.GuardState, events: seq<Event>)

  function Settle(r: Run, node: Node, n: NodeRun): Stepped {
    match n.end
    case Commit(update) =>
      var s := Merge(r.state, update);
      Stepped(r.(phase := Successor(node, s), state := s), n.guard, n.events)
    case Interrupt => Stepped(r.(phase := Suspended), n.guard, n.events + [Paused])
    case Raise(message) => Stepped(r.(phase := Crashed(message)), n.guard, n.events)
    case CallAgain(first) => Stepped(r.(phase := Retrying(node, first)), n.guard, n.events)
  }

  function Step(h: Host, r: Run, g: CostGuard.GuardState, i: Input): Stepped {
    match r.phase
    case At(node) => Settle(r, node, RunNode(h, node, r.approved, r.state, g, i))
    case Retrying(node, _) => Settle(r, node, RunRetry(node, r.state, g, i))
    case _ => Stepped(r, g, [])
  }

  function Start(thread: string, logPath: string, traceId: Option<string>): Run {
    Run(thread, At(Dispatch), FreshState(logPath, traceId), false)
  }

  /** Resumption of a suspended run: the gate runs again from its start. */
  function Resume(r: Run): Run
    requires r.phase.Suspended?
  {
    r.(phase := At(SecurityGate), approved := true)
  }

  // ----------------------------------------------- many steps, with interference

  /** The guard as the run finds it, since other runs spend from it too, and the input. */
  type Moment = (CostGuard.GuardState, Input)

  datatype Trail = Trail(run: Run, events: seq<Event>)

  function Follow(h: Host, r: Run, moments: seq<Moment>): Trail
    decreases |moments|
  {
    if moments == [] then Trail(r, [])
    else
      var one := Step(h, r, moments[0].0, moments[0].1);
      var rest := Follow(h, one.run, moments[1..]);
      Trail(rest.run, one.events + rest.events)
  }

  // --------------------------------------------------- how the caller sees it

  /** What run_pipeline makes of the state invoke() returned: a path, or an exception.
      A run that was suspended or ran out of budget has no report path. */
  function PipelineResult(r: Run): Option<string> {
    if r.phase.Crashed? || r.state.parseError.GetOr("") != "" then None else r.state.reportPath
  }
}
