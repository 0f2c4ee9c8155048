/** One engine run (io_iii/core/engine.py): capability, provider, audit and revision, with a
    failure possible at every external call and guard. */
module Engine {
  import opened Values
  import opened ContentSafety
  import opened Runbooks
  import opened SessionStates
  import opened Oracles
  import opened ExecutionTraces
  import opened EngineLogs

  // ---- What a run is given --------------------------------------------------------

  datatype DepsArg = Absent | Foreign | Bundle

  /** The arguments of `run`. No capability is the empty identifier, which the code treats alike;
      the context limit is absent when the configured value is not a number. */
  datatype Request = Request(
    state: SessionState,
    userPrompt: string,
    audit: bool,
    deps: DepsArg,
    capabilityId: string,
    payload: Value,
    contextLimit: Option<int>)

  datatype CapabilityMeta = CapabilityMeta(
    capabilityId: string, version: string, category: string, ok: bool, errorCode: Option<string>, durationMs: int,
    output: Value)

  /** A capability call: its result, or the text of the exception it raised. */
  datatype CapabilityReply = Delivered(meta: CapabilityMeta) | Broke(message: string)

  datatype Assembled = Assembled(systemPrompt: string, userPrompt: string, promptHash: string)

  /** The places where a run can raise, in the order it reaches them. */
  datatype Point =
    | DepsCheck | PayloadCheck | CapabilityCall
    | NullRun
    | TargetPresent | TargetFormat | Factory | Assembly | ContextLimit | Inference
    | Challenge | VerdictReport | RevisionPrompt | RevisionCall
    | OutputGuard

  datatype Phase = Setup | Capability | Provider | Audit | Revision

  /** How the outside answers: None is an exception. A provider is asked with the model and the prompt,
      for a revision with what its prompt is made of. */
  datatype Externals = Externals(
    dumps: Value -> bool,
    capability: (string, Value) -> CapabilityReply,
    nullRun: (string, string) -> Option<string>,
    factory: bool,
    assemble: string -> Option<Assembled>,
    infer: (string, string) -> Option<string>,
    challenge: (string, string) -> Option<Value>,
    revise: (string, string, string, Value) -> Option<string>,
    timing: string -> (int, int),
    traceStartMs: int,
    nowMs: int,
    classify: (Point, Phase) -> (string, string),
    attachable: Point -> bool)

  /** The calls a run makes, with what it passes. */
  datatype Call =
    | InvokeCapability(id: string, payload: Value)
    | RunNull(mode: string, routeId: string)
    | Assemble(userPrompt: string)
    | Generate(model: string, prompt: string)
    | AskChallenger(userPrompt: string, draft: string)
    | Regenerate(model: string, userPrompt: string, draft: string, feedback: Value)

  datatype Reply =
    | Done(state: SessionState, result: ExecutionResult, trace: Value, events: seq<EngineEvent>)
    | Threw(point: Point, failure: Option<RuntimeFailure>)

  // ---- Small pieces ------------------------------------------------------------------

  function FirstColon(s: string): (i: Option<nat>)
    ensures i.Some? ==> i.value < |s| && s[i.value] == ':' && ':' !in s[..i.value]
    ensures i.None? ==> ':' !in s
  {
    if s == "" then None
    else if s[0] == ':' then Some(0)
    else match FirstColon(s[1..])
      case None => assert s == [s[0]] + s[1..]; None
      case Some(j) => assert s[..j + 1] == [s[0]] + s[1..][..j]; Some(j + 1)
  }

  /** The model half of `_parse_target`, if the target is well formed. */
  function ParseTarget(target: string): Option<string> {
    match FirstColon(target)
    case None => None
    case Some(i) =>
      if Strip(target[..i]) == "" || Strip(target[i + 1..]) == "" then None else Some(Strip(target[i + 1..]))
  }

  const CAPABILITY_PREFIX := "CAPABILITY_"

  /** `_capability_error_code_from_exc`. */
  function CapabilityErrorCode(message: string): string {
    if CAPABILITY_PREFIX <= message
    then match FirstColon(message)
      case None => message
      case Some(i) => message[..i]
    else "CAPABILITY_EXCEPTION"
  }

  function CapabilityDict(m: CapabilityMeta): (v: Value)
    ensures Clean(v, DEFAULT_FORBIDDEN_KEYS) <==> Clean(m.output, DEFAULT_FORBIDDEN_KEYS)
  {
    var entries := map[
      Name("capability_id") := Str(m.capabilityId),
      Name("version") := Str(m.version),
      Name("category") := Str(m.category),
      Name("ok") := Bool(m.ok),
      Name("error_code") := OptStr(m.errorCode),
      Name("duration_ms") := Int(m.durationMs),
      Name("output") := m.output];
    assert entries[Name("output")] == m.output;
    Dict(entries)
  }

  function FinalPrompt(a: Assembled): string {
    a.systemPrompt + "\n\nUser:\n" + a.userPrompt + "\n\nIO-III:"
  }

  /** `audit_result.get("verdict")`; a challenger that answers anything but a mapping makes it raise. */
  function VerdictOf(feedback: Value): Value {
    if feedback.Dict? then feedback.Get("verdict") else Null
  }

  function PhaseText(p: Phase): string {
    match p
    case Setup => "setup"
    case Capability => "capability"
    case Provider => "provider"
    case Audit => "audit"
    case Revision => "revision"
  }

  // Event and step metadata: none of these keys is forbidden.

  function StartedMeta(s: SessionState): (m: map<Key, Value>)
    ensures Clean(Dict(m), DEFAULT_FORBIDDEN_KEYS)
  {
    map[Name("mode") := Str(s.mode), Name("provider") := Str(s.provider),
        Name("caller") := Str(if s.taskSpecId.Some? then "orchestrator" else "cli")]
  }

  function RouteMeta(s: SessionState): (m: map<Key, Value>)
    ensures Clean(Dict(m), DEFAULT_FORBIDDEN_KEYS)
  {
    map[Name("selected_provider") := Str(s.provider), Name("route_id") := Str(s.routeId),
        Name("fallback_used") := Bool(s.route.Some? && s.route.value.fallbackUsed)]
  }

  function ProviderMeta(provider: string, model: Option<string>): (m: map<Key, Value>)
    ensures Clean(Dict(m), DEFAULT_FORBIDDEN_KEYS)
  {
    map[Name("provider") := Str(provider), Name("model") := OptStr(model)]
  }

  function NullStepMeta(): (m: map<Key, Value>)
    ensures Clean(Dict(m), DEFAULT_FORBIDDEN_KEYS)
  {
    map[Name("provider") := Str("null")]
  }

  function CapabilityStepMeta(id: string, success: Value, errorCode: Option<string>): (m: map<Key, Value>)
    requires success.Bool?
    ensures Clean(Dict(m), DEFAULT_FORBIDDEN_KEYS)
  {
    map[Name("capability_id") := Str(id), Name("success") := success, Name("error_code") := OptStr(errorCode)]
  }

  const PERSONA_CONTRACT_VERSION := "v0.1"

  function AssemblyMeta(routeId: string): (m: map<Key, Value>)
    ensures Clean(Dict(m), DEFAULT_FORBIDDEN_KEYS)
  {
    map[Name("persona_contract_version") := Str(PERSONA_CONTRACT_VERSION), Name("route_id") := Str(routeId)]
  }

  function ChallengerMeta(): (m: map<Key, Value>)
    ensures Clean(Dict(m), DEFAULT_FORBIDDEN_KEYS)
  {
    map[Name("enabled") := Bool(true)]
  }

  function VerdictMeta(verdict: Value, passes: int): (m: map<Key, Value>)
    ensures Clean(Dict(m), DEFAULT_FORBIDDEN_KEYS) <==> Clean(verdict, DEFAULT_FORBIDDEN_KEYS)
  {
    var m := map[Name("verdict") := verdict, Name("audit_passes") := Int(passes)];
    assert m[Name("verdict")] == verdict;
    m
  }

  function RevisionMeta(passes: int): (m: map<Key, Value>)
    ensures Clean(Dict(m), DEFAULT_FORBIDDEN_KEYS)
  {
    map[Name("revision_passes") := Int(passes)]
  }

  function CompleteMeta(steps: nat): (m: map<Key, Value>)
    ensures Clean(Dict(m), DEFAULT_FORBIDDEN_KEYS)
  {
    map[Name("trace_step_count") := Int(steps)]
  }

  function FailedMeta(kind: string, code: string, phase: Phase): (m: map<Key, Value>)
    ensures Clean(Dict(m), DEFAULT_FORBIDDEN_KEYS)
  {
    map[Name("failure_kind") := Str(kind), Name("failure_code") := Str(code), Name("phase") := Str(PhaseText(phase))]
  }

  // ---- What a run does, read off its inputs ---------------------------------------------

  predicate Ollama(q: Request) {
    q.state.provider == "ollama"
  }

  predicate UsesCapability(q: Request) {
    q.deps.Bundle? && q.capabilityId != ""
  }

  predicate Audited(q: Request) {
    Ollama(q) && q.audit
  }

  function PayloadOf(q: Request): Value {
    if q.payload.Null? then Dict(map[]) else q.payload
  }

  /** `_validate_capability_payload` returns. */
  predicate PayloadAccepted(q: Request, x: Externals) {
    var p := PayloadOf(q);
    p.Dict? && (forall k | k in p.entries :: k.Name?) && x.dumps(p)
  }

  function TargetOf(q: Request): string {
    if q.state.route.Some? then q.state.route.value.selectedTarget.GetOrElse("") else ""
  }

  function ModelOf(q: Request): string {
    ParseTarget(TargetOf(q)).GetOrElse("")
  }

  function CapabilityAnswer(q: Request, x: Externals): CapabilityReply {
    x.capability(q.capabilityId, PayloadOf(q))
  }

  function NullAnswer(q: Request, x: Externals): Option<string> {
    x.nullRun(q.state.mode, q.state.routeId)
  }

  function AssemblyOf(q: Request, x: Externals): Option<Assembled> {
    x.assemble(q.userPrompt)
  }

  function PromptOf(q: Request, x: Externals): string {
    if AssemblyOf(q, x).Some? then FinalPrompt(AssemblyOf(q, x).value) else ""
  }

  predicate OverLimit(q: Request, x: Externals) {
    q.contextLimit.None? || (q.contextLimit.value > 0 && |PromptOf(q, x)| > q.contextLimit.value)
  }

  function DraftOf(q: Request, x: Externals): string {
    Strip(x.infer(ModelOf(q), PromptOf(q, x)).GetOrElse(""))
  }

  function FeedbackOf(q: Request, x: Externals): Value {
    x.challenge(q.userPrompt, DraftOf(q, x)).GetOrElse(Null)
  }

  function RevisionAnswer(q: Request, x: Externals): Option<string> {
    x.revise(ModelOf(q), q.userPrompt, DraftOf(q, x), FeedbackOf(q, x))
  }

  /** The challenger asks for a revision. */
  predicate NeedsWork(q: Request, x: Externals) {
    Audited(q) && VerdictOf(FeedbackOf(q, x)) == Str("needs_work")
  }

  function CapabilityGiven(q: Request, x: Externals): Option<CapabilityMeta> {
    if UsesCapability(q) && CapabilityAnswer(q, x).Delivered? then Some(CapabilityAnswer(q, x).meta) else None
  }

  predicate Rejected(capability: Option<CapabilityMeta>) {
    capability.Some? && !Clean(capability.value.output, DEFAULT_FORBIDDEN_KEYS)
  }

  /** Does the run raise at this point, if it gets that far? */
  predicate Fails(p: Point, q: Request, x: Externals) {
    match p
    case DepsCheck => q.deps.Foreign?
    case PayloadCheck => UsesCapability(q) && !PayloadAccepted(q, x)
    case CapabilityCall => UsesCapability(q) && CapabilityAnswer(q, x).Broke?
    case NullRun => !Ollama(q) && NullAnswer(q, x).None?
    case TargetPresent => Ollama(q) && TargetOf(q) == ""
    case TargetFormat => Ollama(q) && ParseTarget(TargetOf(q)).None?
    case Factory => Ollama(q) && !x.factory
    case Assembly => Ollama(q) && AssemblyOf(q, x).None?
    case ContextLimit => Ollama(q) && OverLimit(q, x)
    case Inference => Ollama(q) && x.infer(ModelOf(q), PromptOf(q, x)).None?
    case Challenge => Audited(q) && x.challenge(q.userPrompt, DraftOf(q, x)).None?
    case VerdictReport =>
      Audited(q) && (!FeedbackOf(q, x).Dict? || !Clean(VerdictOf(FeedbackOf(q, x)), DEFAULT_FORBIDDEN_KEYS))
    case RevisionPrompt => NeedsWork(q, x) && !x.dumps(FeedbackOf(q, x))
    case RevisionCall => NeedsWork(q, x) && RevisionAnswer(q, x).None?
    case OutputGuard => Rejected(CapabilityGiven(q, x))
  }

  function Order(p: Point): nat {
    match p
    case DepsCheck => 0
    case PayloadCheck => 1
    case CapabilityCall => 2
    case NullRun => 3
    case TargetPresent => 4
    case TargetFormat => 5
    case Factory => 6
    case Assembly => 7
    case ContextLimit => 8
    case Inference => 9
    case Challenge => 10
    case VerdictReport => 11
    case RevisionPrompt => 12
    case RevisionCall => 13
    case OutputGuard => 14
  }

  const POINTS := [DepsCheck, PayloadCheck, CapabilityCall, NullRun, TargetPresent, TargetFormat, Factory, Assembly,
                   ContextLimit, Inference, Challenge, VerdictReport, RevisionPrompt, RevisionCall, OutputGuard]

  /** The first point from `r` on at which the run raises, or the number of points if it returns. */
  function Reach(q: Request, x: Externals, r: nat): (stop: nat)
    requires r <= |POINTS|
    ensures r <= stop <= |POINTS|
    ensures forall i | r <= i < stop :: !Fails(POINTS[i], q, x)
    ensures stop < |POINTS| ==> Fails(POINTS[stop], q, x)
    decreases |POINTS| - r
  {
    if r == |POINTS| || Fails(POINTS[r], q, x) then r else Reach(q, x, r + 1)
  }

  const AT_END := 15

  function StopsAt(q: Request, x: Externals): (stop: nat)
    ensures stop <= AT_END
  {
    Reach(q, x, 0)
  }

  // The records a run leaves, in terms of the point it stops at.

  function EventOf(q: Request, kind: EngineEventKind, meta: map<Key, Value>): EngineEvent {
    EngineEvent(kind, q.state.requestId, q.state.taskSpecId, meta)
  }

  function ProviderName(q: Request): string {
    if Ollama(q) then "ollama" else "null"
  }

  function ReportedModel(q: Request): Option<string> {
    if Ollama(q) then Some(ModelOf(q)) else None
  }

  function ProviderEvent(q: Request): EngineEvent {
    EventOf(q, ProviderExecutionComplete, ProviderMeta(ProviderName(q), ReportedModel(q)))
  }

  /** The events up to the stop, without the one the failure handler adds. */
  function Emitted(q: Request, x: Externals): seq<EngineEvent> {
    StartEvents(q) +
    if StopsAt(q, x) > Order(CapabilityCall) then [EventOf(q, RouteResolved, RouteMeta(q.state))] + ProviderEvents(q, x)
    else []
  }

  function StartEvents(q: Request): (events: seq<EngineEvent>)
    ensures |events| == 1
  {
    [EventOf(q, RunStarted, StartedMeta(q.state))]
  }

  function ProviderEvents(q: Request, x: Externals): seq<EngineEvent> {
    if StopsAt(q, x) > Order(if Ollama(q) then Inference else NullRun)
    then [ProviderEvent(q)] + AuditEvents(q, x) + ClosingEvents(q, x)
    else []
  }

  function AuditEvents(q: Request, x: Externals): (events: seq<EngineEvent>)
    ensures |events| <= 2
  {
    if Audited(q) && StopsAt(q, x) > Order(VerdictReport)
    then [EventOf(q, ChallengerAuditComplete, VerdictMeta(VerdictOf(FeedbackOf(q, x)), 1))] + RevisionEvents(q, x)
    else []
  }

  function RevisionEvents(q: Request, x: Externals): (events: seq<EngineEvent>)
    ensures |events| <= 1
  {
    if NeedsWork(q, x) && StopsAt(q, x) > Order(RevisionCall)
    then [EventOf(q, RevisionComplete, RevisionMeta(1))]
    else []
  }

  function ClosingEvents(q: Request, x: Externals): seq<EngineEvent> {
    if StopsAt(q, x) == AT_END then Closing(q, ProviderName(q), ReportedModel(q), |StepsOf(q, x)|) else []
  }

  function Closing(q: Request, provider: string, model: Option<string>, steps: nat): seq<EngineEvent> {
    [EventOf(q, OutputEmitted, ProviderMeta(provider, model)), EventOf(q, RunComplete, CompleteMeta(steps))]
  }

  function StepOf(x: Externals, stage: string, meta: map<Key, Value>): TraceStep {
    TraceStep(stage, x.timing(stage).0, x.timing(stage).1, meta)
  }

  function CapabilityStep(q: Request, x: Externals): TraceStep {
    StepOf(x, "capability_execution",
      match CapabilityAnswer(q, x)
      case Delivered(m) => CapabilityStepMeta(q.capabilityId, Bool(m.ok), m.errorCode)
      case Broke(message) => CapabilityStepMeta(q.capabilityId, Bool(false), Some(CapabilityErrorCode(message))))
  }

  /** The trace steps: each is recorded once its body has run, whether it returned or raised. */
  function StepsOf(q: Request, x: Externals): seq<TraceStep> {
    CapabilitySteps(q, x) +
    if !Ollama(q) then (if StopsAt(q, x) >= Order(NullRun) then [StepOf(x, "provider_run", NullStepMeta())] else [])
    else if StopsAt(q, x) >= Order(Assembly)
    then [StepOf(x, "context_assembly", AssemblyMeta(q.state.routeId))] + InferenceSteps(q, x)
    else []
  }

  function CapabilitySteps(q: Request, x: Externals): seq<TraceStep> {
    if UsesCapability(q) && StopsAt(q, x) >= Order(CapabilityCall) then [CapabilityStep(q, x)] else []
  }

  function InferenceSteps(q: Request, x: Externals): seq<TraceStep> {
    if StopsAt(q, x) >= Order(Inference)
    then [StepOf(x, "provider_inference", ProviderMeta("ollama", Some(ModelOf(q))))] + AuditSteps(q, x)
    else []
  }

  function AuditSteps(q: Request, x: Externals): seq<TraceStep> {
    if Audited(q) && StopsAt(q, x) >= Order(Challenge)
    then [StepOf(x, "challenger_audit", ChallengerMeta())] + RevisionSteps(q, x)
    else []
  }

  function RevisionSteps(q: Request, x: Externals): seq<TraceStep> {
    if NeedsWork(q, x) && StopsAt(q, x) >= Order(RevisionCall)
    then [StepOf(x, "revision_inference", ProviderMeta("ollama", Some(ModelOf(q))))]
    else []
  }

  function CallsOf(q: Request, x: Externals): seq<Call> {
    CapabilityCalls(q, x) +
    if !Ollama(q) then (if StopsAt(q, x) >= Order(NullRun) then [RunNull(q.state.mode, q.state.routeId)] else [])
    else if StopsAt(q, x) >= Order(Assembly) then [Assemble(q.userPrompt)] + InferenceCalls(q, x)
    else []
  }

  function CapabilityCalls(q: Request, x: Externals): seq<Call> {
    if UsesCapability(q) && StopsAt(q, x) >= Order(CapabilityCall)
    then [InvokeCapability(q.capabilityId, PayloadOf(q))]
    else []
  }

  function InferenceCalls(q: Request, x: Externals): seq<Call> {
    if StopsAt(q, x) >= Order(Inference) then [Generate(ModelOf(q), PromptOf(q, x))] + AuditCalls(q, x) else []
  }

  function AuditCalls(q: Request, x: Externals): seq<Call> {
    if Audited(q) && StopsAt(q, x) >= Order(Challenge)
    then [AskChallenger(q.userPrompt, DraftOf(q, x))] + RevisionCalls(q, x)
    else []
  }

  function RevisionCalls(q: Request, x: Externals): seq<Call> {
    if NeedsWork(q, x) && StopsAt(q, x) >= Order(RevisionCall)
    then [Regenerate(ModelOf(q), q.userPrompt, DraftOf(q, x), FeedbackOf(q, x))]
    else []
  }

  /** The phase marker when the run stops: where it last moved, not always where it fails. */
  function PhaseOf(q: Request, x: Externals): Phase {
    var stop := StopsAt(q, x);
    if UsesCapability(q) && Order(PayloadCheck) <= stop <= Order(CapabilityCall) then Capability
    else if !Ollama(q) || stop < Order(Inference) then Setup
    else if NeedsWork(q, x) && stop >= Order(RevisionPrompt) then Revision
    else if Audited(q) && stop >= Order(Challenge) then Audit
    else Provider
  }

  function TextOf(q: Request, x: Externals): string {
    if !Ollama(q) then NullAnswer(q, x).GetOrElse("")
    else if NeedsWork(q, x) then Strip(RevisionAnswer(q, x).GetOrElse(""))
    else DraftOf(q, x)
  }

  function LatencyOf(q: Request, x: Externals): nat {
    if x.nowMs < q.state.startedAtMs then 0 else x.nowMs - q.state.startedAtMs
  }

  function FinalState(q: Request, x: Externals): SessionState {
    q.state.(
      status := "ok", provider := ProviderName(q), model := ReportedModel(q), latencyMs := Some(LatencyOf(q, x)),
      audit := if Ollama(q) then FinalAudit(q, x) else q.state.audit.(auditEnabled := q.audit))
  }

  function FinalAudit(q: Request, x: Externals): AuditGateState {
    AuditGateState(q.audit, if q.audit then 1 else 0, if NeedsWork(q, x) then 1 else 0,
                   if q.audit then VerdictOf(FeedbackOf(q, x)) else Null, NeedsWork(q, x))
  }

  function FinalResult(q: Request, x: Externals): ExecutionResult {
    ExecutionResult(
      TextOf(q, x), ProviderName(q), ReportedModel(q), q.state.routeId,
      if Audited(q) then Some(AuditMeta(true, VerdictOf(FeedbackOf(q, x)), NeedsWork(q, x))) else None,
      if Ollama(q) && AssemblyOf(q, x).Some? then Some(AssemblyOf(q, x).value.promptHash) else None,
      Attached(CapabilityGiven(q, x)))
  }

  function FinalTrace(q: Request, x: Externals): Value {
    TraceDict(q.state.requestId, Completed, x.traceStartMs, StepsOf(q, x), Timings(StepsOf(q, x)))
  }

  function EnvelopeOf(q: Request, x: Externals, p: Point): RuntimeFailure {
    var (kind, code) := x.classify(p, PhaseOf(q, x));
    RuntimeFailure(kind, code, q.state.requestId, q.state.taskSpecId)
  }

  function EventsOf(q: Request, x: Externals): seq<EngineEvent> {
    Emitted(q, x) +
    if StopsAt(q, x) == AT_END then []
    else
      var f := EnvelopeOf(q, x, POINTS[StopsAt(q, x)]);
      [EventOf(q, RunFailed, FailedMeta(f.kind, f.code, PhaseOf(q, x)))]
  }

  function StatusOf(q: Request, x: Externals): TraceStatus {
    if StopsAt(q, x) < Order(OutputGuard) then Failed else Completed
  }

  function ReplyOf(q: Request, x: Externals): Reply {
    if StopsAt(q, x) == AT_END then Done(FinalState(q, x), FinalResult(q, x), FinalTrace(q, x), EventsOf(q, x))
    else
      var p := POINTS[StopsAt(q, x)];
      Threw(p, if x.attachable(p) then Some(EnvelopeOf(q, x, p)) else None)
  }

  // ---- The run ---------------------------------------------------------------------------

  lemma PointAt(p: Point)
    ensures Order(p) < |POINTS| && POINTS[Order(p)] == p
  {
    match p
    case DepsCheck =>
    case PayloadCheck =>
    case CapabilityCall =>
    case NullRun =>
    case TargetPresent =>
    case TargetFormat =>
    case Factory =>
    case Assembly =>
    case ContextLimit =>
    case Inference =>
    case Challenge =>
    case VerdictReport =>
    case RevisionPrompt =>
    case RevisionCall =>
    case OutputGuard =>
  }

  lemma Advance(q: Request, x: Externals, p: Point)
    requires StopsAt(q, x) >= Order(p)
    ensures POINTS[Order(p)] == p
    ensures if Fails(p, q, x) then StopsAt(q, x) == Order(p) else StopsAt(q, x) > Order(p)
  {
    hide Fails, Order;
    PointAt(p);
  }

  ghost predicate CleanTrace(steps: seq<TraceStep>) {
    forall i | 0 <= i < |steps| ::
      Clean(Dict(steps[i].meta), DEFAULT_FORBIDDEN_KEYS) && steps[i].stage !in DEFAULT_FORBIDDEN_KEYS
  }

  /** Everything recorded so far is what a run stopping at p leaves. */
  ghost predicate StoppedAt(p: Point, q: Request, x: Externals, steps: seq<TraceStep>, events: seq<EngineEvent>,
                            calls: seq<Call>, phase: Phase)
  {
    && StopsAt(q, x) == Order(p)
    && steps == StepsOf(q, x)
    && events == Emitted(q, x)
    && calls == CallsOf(q, x)
    && phase == PhaseOf(q, x)
  }

  lemma EarlyRecords(q: Request, x: Externals)
    requires StopsAt(q, x) <= Order(CapabilityCall)
    ensures Emitted(q, x) == StartEvents(q)
    ensures StepsOf(q, x) == CapabilitySteps(q, x)
    ensures CallsOf(q, x) == CapabilityCalls(q, x)
    ensures PhaseOf(q, x) == if UsesCapability(q) && StopsAt(q, x) > 0 then Capability else Setup
  {
    hide StopsAt, CapabilitySteps, CapabilityCalls, StartEvents, NeedsWork, UsesCapability, Audited, Ollama;
  }

  /** The dependency check and the capability invocation. */
  method CapabilityPhase(q: Request, x: Externals, trace: TraceRecorder)
    returns (thrown: Option<Point>, capability: Option<CapabilityMeta>, calls: seq<Call>, phase: Phase)
    requires trace.status == Created && trace.steps == []
    modifies trace
    ensures thrown.Some? ==>
              && Order(thrown.value) <= Order(CapabilityCall)
              && StoppedAt(thrown.value, q, x, trace.steps, StartEvents(q), calls, phase)
              && trace.status in {Created, Running}
    ensures thrown.None? ==>
              && StopsAt(q, x) > Order(CapabilityCall)
              && trace.steps == CapabilitySteps(q, x)
              && trace.status == (if UsesCapability(q) then Running else Created)
              && calls == CapabilityCalls(q, x) && capability == CapabilityGiven(q, x) && phase == Setup
  {
    hide StopsAt, CapabilityErrorCode, StartedMeta, CapabilityStepMeta, Emitted, StepsOf, CallsOf, PhaseOf,
         PayloadAccepted;
    if StopsAt(q, x) <= Order(CapabilityCall) {
      EarlyRecords(q, x);
    }
    thrown, capability, calls, phase := None, None, [], Setup;
    Advance(q, x, DepsCheck);
    if q.deps.Foreign? {
      return Some(DepsCheck), None, [], Setup;
    }
    if UsesCapability(q) {
      phase := Capability;
      Advance(q, x, PayloadCheck);
      if !PayloadAccepted(q, x) {
        return Some(PayloadCheck), None, [], phase;
      }
      Advance(q, x, CapabilityCall);
      var entered := trace.BeginStep();
      calls := [InvokeCapability(q.capabilityId, PayloadOf(q))];
      match CapabilityAnswer(q, x) {
        case Delivered(m) =>
          capability := Some(m);
          trace.EndStep(StepOf(x, "capability_execution", CapabilityStepMeta(q.capabilityId, Bool(m.ok), m.errorCode)));
        case Broke(message) =>
          trace.EndStep(StepOf(x, "capability_execution",
                               CapabilityStepMeta(q.capabilityId, Bool(false), Some(CapabilityErrorCode(message)))));
          return Some(CapabilityCall), None, calls, phase;
      }
    } else {
      Advance(q, x, PayloadCheck);
      Advance(q, x, CapabilityCall);
    }
    phase := Setup;
  }

  /** What the rest of a run leaves, once the route is resolved. */
  ghost predicate Settled(reply: Reply, q: Request, x: Externals, status: TraceStatus, steps: seq<TraceStep>,
                          events: seq<EngineEvent>, calls: seq<Call>, phase: Phase)
  {
    && StopsAt(q, x) == (if reply.Threw? then Order(reply.point) else AT_END)
    && (if StopsAt(q, x) < Order(OutputGuard) then status in {Created, Running} else status == Completed)
    && steps == StepsOf(q, x)
    && events == Emitted(q, x)
    && calls == CallsOf(q, x)
    && phase == PhaseOf(q, x)
    && (reply.Threw? ==> reply.failure.None?)
    && (reply.Done? ==> reply == Done(FinalState(q, x), FinalResult(q, x), FinalTrace(q, x), events))
  }

  /** The end of both provider paths: complete the trace, guard what is attached, emit the last two events. */
  method Finish(q: Request, x: Externals, trace: TraceRecorder, log: EngineObservabilityLog,
                capability: Option<CapabilityMeta>, provider: string, model: Option<string>)
    returns (ok: bool, document: Value)
    requires trace.status == Running && CleanTrace(trace.steps)
    requires |log.events| + 2 <= MAX_EVENTS
    modifies trace, log
    ensures trace.status == Completed && trace.steps == old(trace.steps)
    ensures ok <==> !Rejected(capability)
    ensures document == TraceDict(q.state.requestId, Completed, x.traceStartMs, trace.steps, Timings(trace.steps))
    ensures !ok ==> log.events == old(log.events)
    ensures ok ==> log.events == old(log.events) + Closing(q, provider, model, |trace.steps|)
  {
    hide TraceDict, Clean, CapabilityDict, ProviderMeta, CompleteMeta;
    var completed := trace.Transition(Completed);
    var timings := StageTimings(trace.steps);
    document := TraceDict(q.state.requestId, trace.status, x.traceStartMs, trace.steps, timings);
    var admitted := AssertNoForbiddenKeys(document, DEFAULT_FORBIDDEN_KEYS);
    TraceDictClean(q.state.requestId, Completed, x.traceStartMs, trace.steps, timings);
    assert admitted;
    ok := true;
    if capability.Some? {
      ok := AssertNoForbiddenKeys(CapabilityDict(capability.value), DEFAULT_FORBIDDEN_KEYS);
    }
    if ok {
      var emitted := log.Emit(OutputEmitted, q.state.requestId, q.state.taskSpecId, ProviderMeta(provider, model));
      emitted := log.Emit(RunComplete, q.state.requestId, q.state.taskSpecId, CompleteMeta(|trace.steps|));
    }
  }

  lemma StepsAreClean(q: Request, x: Externals)
    ensures CleanTrace(StepsOf(q, x))
  {
    hide StopsAt, CapabilitySteps, InferenceSteps, CleanTrace, NullStepMeta, AssemblyMeta;
    var capability := CapabilitySteps(q, x);
    CapabilityStepsAreClean(q, x);
    InferenceStepsAreClean(q, x);
    CleanConcat(capability, [StepOf(x, "provider_run", NullStepMeta())]);
    CleanConcat([StepOf(x, "context_assembly", AssemblyMeta(q.state.routeId))], InferenceSteps(q, x));
    CleanConcat(capability, [StepOf(x, "context_assembly", AssemblyMeta(q.state.routeId))] + InferenceSteps(q, x));
    CleanOne(StepOf(x, "provider_run", NullStepMeta()));
    CleanOne(StepOf(x, "context_assembly", AssemblyMeta(q.state.routeId)));
    assert capability + [] == capability;
  }

  lemma CapabilityStepsAreClean(q: Request, x: Externals)
    ensures CleanTrace(CapabilitySteps(q, x))
  {
    hide StopsAt, CleanTrace, CapabilityStepMeta, CapabilityErrorCode, UsesCapability, PayloadOf;
    CleanNone();
    CleanOne(CapabilityStep(q, x));
  }

  lemma InferenceStepsAreClean(q: Request, x: Externals)
    ensures CleanTrace(InferenceSteps(q, x))
  {
    hide StopsAt, CleanTrace, ChallengerMeta, ProviderMeta, NeedsWork, Audited, ModelOf;
    var inference := StepOf(x, "provider_inference", ProviderMeta("ollama", Some(ModelOf(q))));
    var audit := StepOf(x, "challenger_audit", ChallengerMeta());
    var revision := StepOf(x, "revision_inference", ProviderMeta("ollama", Some(ModelOf(q))));
    CleanNone();
    CleanOne(inference);
    CleanOne(audit);
    CleanOne(revision);
    CleanConcat([audit], RevisionSteps(q, x));
    CleanConcat([inference], AuditSteps(q, x));
  }

  lemma CleanNone()
    ensures CleanTrace([])
  {
  }

  lemma CleanOne(s: TraceStep)
    requires Clean(Dict(s.meta), DEFAULT_FORBIDDEN_KEYS) && s.stage !in DEFAULT_FORBIDDEN_KEYS
    ensures CleanTrace([s])
  {
  }

  lemma CleanConcat(a: seq<TraceStep>, b: seq<TraceStep>)
    requires CleanTrace(a) && CleanTrace(b)
    ensures CleanTrace(a + b)
  {
  }

  lemma NothingPastNull(q: Request, x: Externals)
    requires !Ollama(q) && StopsAt(q, x) > Order(NullRun)
    ensures StopsAt(q, x) >= Order(OutputGuard)
  {
    hide StopsAt, Rejected, CapabilityGiven;
    Stopping(q, x);
  }

  lemma Stopping(q: Request, x: Externals)
    ensures StopsAt(q, x) < AT_END ==> Fails(POINTS[StopsAt(q, x)], q, x)
    ensures forall p: Point :: Order(p) < AT_END && POINTS[Order(p)] == p
  {
    hide Fails, Order;
    forall p: Point
      ensures Order(p) < AT_END && POINTS[Order(p)] == p
    {
      PointAt(p);
    }
  }

  lemma NullStops(q: Request, x: Externals)
    requires !Ollama(q) && StopsAt(q, x) > Order(CapabilityCall)
    ensures NullAnswer(q, x).None? ==> StopsAt(q, x) == Order(NullRun)
    ensures NullAnswer(q, x).Some? && Rejected(CapabilityGiven(q, x)) ==> StopsAt(q, x) == Order(OutputGuard)
    ensures NullAnswer(q, x).Some? && !Rejected(CapabilityGiven(q, x)) ==> StopsAt(q, x) == AT_END
  {
    hide StopsAt, Rejected, CapabilityGiven;
    Advance(q, x, NullRun);
    if NullAnswer(q, x).Some? {
      NothingPastNull(q, x);
      Advance(q, x, OutputGuard);
    }
  }

  /** The answer of a null run that returns. */
  function NullReply(q: Request, x: Externals, message: string, capability: Option<CapabilityMeta>, document: Value,
                     events: seq<EngineEvent>): Reply
  {
    var state := q.state.(audit := q.state.audit.(auditEnabled := q.audit), status := "ok", provider := "null",
                          model := None, latencyMs := Some(LatencyOf(q, x)));
    Done(state,
         ExecutionResult(message, "null", None, state.routeId, None, None, Attached(capability)),
         document, events)
  }

  function Attached(capability: Option<CapabilityMeta>): Option<Value> {
    if capability.Some? then Some(CapabilityDict(capability.value)) else None
  }

  lemma NullReplies(q: Request, x: Externals)
    requires !Ollama(q) && NullAnswer(q, x).Some?
    ensures NullReply(q, x, NullAnswer(q, x).value, CapabilityGiven(q, x), FinalTrace(q, x), Emitted(q, x)) ==
            Done(FinalState(q, x), FinalResult(q, x), FinalTrace(q, x), Emitted(q, x))
  {
    hide StopsAt, FinalTrace, Emitted, LatencyOf;
  }

  function RoutedEvents(q: Request): (events: seq<EngineEvent>)
    ensures |events| == 2
  {
    StartEvents(q) + [EventOf(q, RouteResolved, RouteMeta(q.state))]
  }

  lemma Regroup<T>(a: seq<T>, b: seq<T>, c: seq<T>, d: seq<T>)
    ensures a + (b + (c + d)) == a + b + c + d
  {
  }

  lemma NullRecords(q: Request, x: Externals)
    requires !Ollama(q) && StopsAt(q, x) > Order(CapabilityCall)
    ensures StepsOf(q, x) == CapabilitySteps(q, x) + [StepOf(x, "provider_run", NullStepMeta())]
    ensures CallsOf(q, x) == CapabilityCalls(q, x) + [RunNull(q.state.mode, q.state.routeId)]
    ensures PhaseOf(q, x) == Setup
  {
    hide StopsAt, CapabilitySteps, CapabilityCalls, StepOf, NullStepMeta, NeedsWork, Audited;
  }

  lemma NullEvents(q: Request, x: Externals)
    requires !Ollama(q) && StopsAt(q, x) > Order(CapabilityCall)
    ensures var provided := RoutedEvents(q) + [EventOf(q, ProviderExecutionComplete, ProviderMeta("null", None))];
            && (StopsAt(q, x) == Order(NullRun) ==> Emitted(q, x) == RoutedEvents(q))
            && (Order(NullRun) < StopsAt(q, x) < AT_END ==> Emitted(q, x) == provided)
            && (StopsAt(q, x) == AT_END ==> Emitted(q, x) == provided + Closing(q, "null", None, |StepsOf(q, x)|))
  {
    hide StopsAt, Closing, StartEvents, EventOf, ProviderMeta, RouteMeta, StepsOf, NeedsWork;
    var route := [EventOf(q, RouteResolved, RouteMeta(q.state))];
    assert AuditEvents(q, x) == [];
    Regroup(StartEvents(q), route, [ProviderEvent(q)], ClosingEvents(q, x));
    assert [ProviderEvent(q)] + [] == [ProviderEvent(q)];
  }

  /** The null provider's path. */
  method NullPath(q: Request, x: Externals, trace: TraceRecorder, log: EngineObservabilityLog,
                  capability: Option<CapabilityMeta>, calls: seq<Call>)
    returns (reply: Reply, calls': seq<Call>)
    requires !Ollama(q) && StopsAt(q, x) > Order(CapabilityCall)
    requires trace.status in {Created, Running} && trace.steps == CapabilitySteps(q, x)
    requires log.events == RoutedEvents(q)
    requires capability == CapabilityGiven(q, x) && calls == CapabilityCalls(q, x)
    modifies trace, log
    ensures Settled(reply, q, x, trace.status, trace.steps, log.events, calls', Setup)
  {
    hide StopsAt, CapabilitySteps, CapabilityCalls, CapabilityGiven, RoutedEvents, ProviderMeta, NullStepMeta, Clean,
         Closing, StepsOf, CallsOf, PhaseOf, Emitted, FinalState, FinalResult, NullReply, CleanTrace, Rejected,
         TraceDict, Timings, CapabilityDict, Attached;
    NullStops(q, x);
    NullRecords(q, x);
    NullEvents(q, x);
    var entered := trace.BeginStep();
    calls' := calls + [RunNull(q.state.mode, q.state.routeId)];
    trace.EndStep(StepOf(x, "provider_run", NullStepMeta()));
    if NullAnswer(q, x).None? {
      return Threw(NullRun, None), calls';
    }
    NullReplies(q, x);
    StepsAreClean(q, x);
    var emitted := log.Emit(ProviderExecutionComplete, q.state.requestId, q.state.taskSpecId,
                            ProviderMeta("null", None));
    var ok, document := Finish(q, x, trace, log, capability, "null", None);
    if !ok {
      return Threw(OutputGuard, None), calls';
    }
    reply := NullReply(q, x, NullAnswer(q, x).value, capability, document, log.events);
  }

  // The ollama path.

  function AssemblyStep(q: Request, x: Externals): (step: TraceStep)
    ensures Clean(Dict(step.meta), DEFAULT_FORBIDDEN_KEYS)
  {
    StepOf(x, "context_assembly", AssemblyMeta(q.state.routeId))
  }

  function InferenceStep(q: Request, x: Externals): (step: TraceStep)
    ensures Clean(Dict(step.meta), DEFAULT_FORBIDDEN_KEYS)
  {
    StepOf(x, "provider_inference", ProviderMeta("ollama", Some(ModelOf(q))))
  }

  lemma OllamaEarly(q: Request, x: Externals)
    requires Ollama(q) && Order(CapabilityCall) < StopsAt(q, x) < Order(Inference)
    ensures Emitted(q, x) == RoutedEvents(q)
    ensures PhaseOf(q, x) == Setup
    ensures StopsAt(q, x) < Order(Assembly) ==>
              StepsOf(q, x) == CapabilitySteps(q, x) && CallsOf(q, x) == CapabilityCalls(q, x)
    ensures StopsAt(q, x) >= Order(Assembly) ==>
              && StepsOf(q, x) == CapabilitySteps(q, x) + [AssemblyStep(q, x)]
              && CallsOf(q, x) == CapabilityCalls(q, x) + [Assemble(q.userPrompt)]
  {
    hide StopsAt, CapabilitySteps, CapabilityCalls, StartEvents, EventOf, StepOf, NeedsWork, Audited, UsesCapability;
  }

  lemma OllamaRecords(q: Request, x: Externals)
    requires Ollama(q) && StopsAt(q, x) >= Order(Inference)
    ensures StepsOf(q, x) == CapabilitySteps(q, x) + [AssemblyStep(q, x)] + [InferenceStep(q, x)] + AuditSteps(q, x)
    ensures CallsOf(q, x) ==
            CapabilityCalls(q, x) + [Assemble(q.userPrompt)] + [Generate(ModelOf(q), PromptOf(q, x))] + AuditCalls(q, x)
    ensures StopsAt(q, x) == Order(Inference) ==>
              AuditSteps(q, x) == [] && AuditCalls(q, x) == [] && PhaseOf(q, x) == Provider
  {
    hide StopsAt, CapabilitySteps, CapabilityCalls, RevisionSteps, RevisionCalls, StepOf, NeedsWork, PromptOf;
    Regroup(CapabilitySteps(q, x), [AssemblyStep(q, x)], [InferenceStep(q, x)], AuditSteps(q, x));
    Regroup(CapabilityCalls(q, x), [Assemble(q.userPrompt)], [Generate(ModelOf(q), PromptOf(q, x))], AuditCalls(q, x));
  }

  lemma OllamaEvents(q: Request, x: Externals)
    requires Ollama(q) && StopsAt(q, x) >= Order(Inference)
    ensures StopsAt(q, x) == Order(Inference) ==> Emitted(q, x) == RoutedEvents(q)
    ensures var provided := RoutedEvents(q) + [ProviderEvent(q)] + AuditEvents(q, x);
            && (Order(Inference) < StopsAt(q, x) < AT_END ==> Emitted(q, x) == provided)
            && (StopsAt(q, x) == AT_END ==>
                  Emitted(q, x) == provided + Closing(q, "ollama", Some(ModelOf(q)), |StepsOf(q, x)|))
  {
    hide StopsAt, StartEvents, EventOf, AuditEvents, Closing, ProviderEvent, StepsOf, ModelOf;
    var route := [EventOf(q, RouteResolved, RouteMeta(q.state))];
    Regroup(StartEvents(q), route, [ProviderEvent(q)], AuditEvents(q, x) + ClosingEvents(q, x));
  }

  /** From the target to the assembled prompt, within the context limit. */
  method AssemblyPhase(q: Request, x: Externals, trace: TraceRecorder, calls: seq<Call>)
    returns (thrown: Option<Point>, model: string, prompt: string, calls': seq<Call>)
    requires Ollama(q) && StopsAt(q, x) > Order(CapabilityCall)
    requires trace.status in {Created, Running} && trace.steps == CapabilitySteps(q, x)
    requires calls == CapabilityCalls(q, x)
    modifies trace
    ensures thrown.Some? ==>
              && Order(thrown.value) < Order(Inference)
              && StoppedAt(thrown.value, q, x, trace.steps, RoutedEvents(q), calls', Setup)
              && trace.status in {Created, Running}
    ensures thrown.None? ==>
              && StopsAt(q, x) >= Order(Inference)
              && trace.status == Running && trace.steps == CapabilitySteps(q, x) + [AssemblyStep(q, x)]
              && calls' == CapabilityCalls(q, x) + [Assemble(q.userPrompt)]
              && ParseTarget(TargetOf(q)) == Some(model) && AssemblyOf(q, x).Some? && prompt == PromptOf(q, x)
  {
    hide StopsAt, CapabilitySteps, CapabilityCalls, RoutedEvents, StepsOf, CallsOf, PhaseOf, Emitted, Clean, CleanTrace,
         AssemblyMeta, FinalPrompt, ParseTarget, StepOf;
    model, prompt, calls' := "", "", calls;
    if StopsAt(q, x) < Order(Inference) {
      OllamaEarly(q, x);
    }
    Advance(q, x, NullRun);
    Advance(q, x, TargetPresent);
    if || q.state.route.None?
       || q.state.route.value.selectedTarget.None?
       || q.state.route.value.selectedTarget.value == ""
    {
      return Some(TargetPresent), model, prompt, calls';
    }
    Advance(q, x, TargetFormat);
    var parsed := ParseTarget(q.state.route.value.selectedTarget.value);
    if parsed.None? {
      return Some(TargetFormat), model, prompt, calls';
    }
    model := parsed.value;
    Advance(q, x, Factory);
    if !x.factory {
      return Some(Factory), model, prompt, calls';
    }
    Advance(q, x, Assembly);
    var entered := trace.BeginStep();
    calls' := calls' + [Assemble(q.userPrompt)];
    trace.EndStep(StepOf(x, "context_assembly", AssemblyMeta(q.state.routeId)));
    if AssemblyOf(q, x).None? {
      return Some(Assembly), model, prompt, calls';
    }
    prompt := FinalPrompt(AssemblyOf(q, x).value);
    Advance(q, x, ContextLimit);
    if q.contextLimit.None? || (q.contextLimit.value > 0 && |prompt| > q.contextLimit.value) {
      return Some(ContextLimit), model, prompt, calls';
    }
    thrown := None;
  }

  /** From the target to the model's first answer. */
  method InferencePhase(q: Request, x: Externals, trace: TraceRecorder, log: EngineObservabilityLog, calls: seq<Call>)
    returns (thrown: Option<Point>, draft: string, calls': seq<Call>, phase: Phase)
    requires Ollama(q) && StopsAt(q, x) > Order(CapabilityCall)
    requires trace.status in {Created, Running} && trace.steps == CapabilitySteps(q, x)
    requires log.events == RoutedEvents(q) && calls == CapabilityCalls(q, x)
    modifies trace, log
    ensures thrown.Some? ==>
              && Order(thrown.value) <= Order(Inference)
              && StoppedAt(thrown.value, q, x, trace.steps, log.events, calls', phase)
              && trace.status in {Created, Running}
    ensures thrown.None? ==>
              && StopsAt(q, x) > Order(Inference)
              && trace.status == Running
              && trace.steps == CapabilitySteps(q, x) + [AssemblyStep(q, x)] + [InferenceStep(q, x)]
              && log.events == RoutedEvents(q) + [ProviderEvent(q)]
              && calls' == CapabilityCalls(q, x) + [Assemble(q.userPrompt)] + [Generate(ModelOf(q), PromptOf(q, x))]
              && draft == DraftOf(q, x) && phase == Provider && ParseTarget(TargetOf(q)).Some? && AssemblyOf(q, x).Some?
  {
    hide StopsAt, CapabilitySteps, CapabilityCalls, RoutedEvents, StepsOf, CallsOf, PhaseOf, Emitted, Clean, CleanTrace,
         ProviderMeta, AssemblyStep, AuditSteps, AuditCalls, AuditEvents, Closing, PromptOf, Strip, ParseTarget, StepOf,
         TargetOf;
    var model, prompt: string;
    draft, phase := "", Setup;
    thrown, model, prompt, calls' := AssemblyPhase(q, x, trace, calls);
    if thrown.Some? {
      return;
    }
    OllamaRecords(q, x);
    OllamaEvents(q, x);
    phase := Provider;
    Advance(q, x, Inference);
    var entered := trace.BeginStep();
    calls' := calls' + [Generate(model, prompt)];
    trace.EndStep(StepOf(x, "provider_inference", ProviderMeta("ollama", Some(model))));
    match x.infer(model, prompt) {
      case None => return Some(Inference), draft, calls', phase;
      case Some(text) => draft := Strip(text);
    }
    var emitted := log.Emit(ProviderExecutionComplete, q.state.requestId, q.state.taskSpecId,
                            ProviderMeta("ollama", Some(model)));
  }

  /** `_do_challenger_pass`: one recorded step, then the verdict goes to the log. */
  method ChallengerPass(q: Request, x: Externals, trace: TraceRecorder, log: EngineObservabilityLog, draft: string,
                        passes: int)
    returns (thrown: Option<Point>, feedback: Value)
    requires trace.status == Running && |log.events| < MAX_EVENTS
    modifies trace, log
    ensures trace.status == Running
    ensures trace.steps == old(trace.steps) + [StepOf(x, "challenger_audit", ChallengerMeta())]
    ensures feedback == x.challenge(q.userPrompt, draft).GetOrElse(Null)
    ensures var refused := !feedback.Dict? || !Clean(VerdictOf(feedback), DEFAULT_FORBIDDEN_KEYS);
            thrown == if x.challenge(q.userPrompt, draft).None? then Some(Challenge)
                      else if refused then Some(VerdictReport)
                      else None
    ensures log.events == if thrown.Some? then old(log.events) else
              old(log.events) + [EventOf(q, ChallengerAuditComplete, VerdictMeta(VerdictOf(feedback), passes))]
  {
    hide Clean, ChallengerMeta, VerdictMeta;
    feedback := Null;
    var entered := trace.BeginStep();
    var answer := x.challenge(q.userPrompt, draft);
    trace.EndStep(StepOf(x, "challenger_audit", ChallengerMeta()));
    if answer.None? {
      return Some(Challenge), feedback;
    }
    feedback := answer.value;
    if !feedback.Dict? {
      return Some(VerdictReport), feedback;
    }
    var emitted := log.Emit(ChallengerAuditComplete, q.state.requestId, q.state.taskSpecId,
                            VerdictMeta(feedback.Get("verdict"), passes));
    thrown := if emitted then None else Some(VerdictReport);
  }

  /** `_do_revision`: one more generation from the draft and the feedback. */
  method Revise(q: Request, x: Externals, trace: TraceRecorder, log: EngineObservabilityLog, draft: string,
                feedback: Value, passes: int, model: string)
    returns (thrown: Option<Point>, text: string)
    requires trace.status == Running && |log.events| < MAX_EVENTS
    modifies trace, log
    ensures trace.status == Running
    ensures trace.steps == if thrown == Some(RevisionPrompt) then old(trace.steps) else
              old(trace.steps) + [StepOf(x, "revision_inference", ProviderMeta("ollama", Some(model)))]
    ensures thrown == if !x.dumps(feedback) then Some(RevisionPrompt)
                      else if x.revise(model, q.userPrompt, draft, feedback).None? then Some(RevisionCall) else None
    ensures thrown.None? ==> text == Strip(x.revise(model, q.userPrompt, draft, feedback).value)
    ensures log.events == if thrown.Some? then old(log.events) else
              old(log.events) + [EventOf(q, RevisionComplete, RevisionMeta(passes))]
  {
    hide Clean, ProviderMeta, RevisionMeta, Strip;
    text := "";
    if !x.dumps(feedback) {
      return Some(RevisionPrompt), text;
    }
    var entered := trace.BeginStep();
    var answer := x.revise(model, q.userPrompt, draft, feedback);
    trace.EndStep(StepOf(x, "revision_inference", ProviderMeta("ollama", Some(model))));
    if answer.None? {
      return Some(RevisionCall), text;
    }
    text := Strip(answer.value);
    var emitted := log.Emit(RevisionComplete, q.state.requestId, q.state.taskSpecId, RevisionMeta(passes));
    thrown := None;
  }

  lemma AuditStops(q: Request, x: Externals)
    requires Ollama(q) && StopsAt(q, x) > Order(Inference)
    ensures !q.audit ==> StopsAt(q, x) >= Order(OutputGuard)
    ensures q.audit && x.challenge(q.userPrompt, DraftOf(q, x)).None? ==> StopsAt(q, x) == Order(Challenge)
    ensures var refused := !FeedbackOf(q, x).Dict? || !Clean(VerdictOf(FeedbackOf(q, x)), DEFAULT_FORBIDDEN_KEYS);
            q.audit && x.challenge(q.userPrompt, DraftOf(q, x)).Some? ==>
              if refused then StopsAt(q, x) == Order(VerdictReport) else StopsAt(q, x) > Order(VerdictReport)
  {
    hide StopsAt, Clean, VerdictOf, FeedbackOf, DraftOf;
    Advance(q, x, Challenge);
    if !Fails(Challenge, q, x) {
      Advance(q, x, VerdictReport);
      if !q.audit {
        Advance(q, x, RevisionPrompt);
        Advance(q, x, RevisionCall);
      }
    }
  }

  lemma RevisionStops(q: Request, x: Externals)
    requires Ollama(q) && q.audit && StopsAt(q, x) > Order(VerdictReport)
    ensures !NeedsWork(q, x) ==> StopsAt(q, x) >= Order(OutputGuard)
    ensures NeedsWork(q, x) && !x.dumps(FeedbackOf(q, x)) ==> StopsAt(q, x) == Order(RevisionPrompt)
    ensures NeedsWork(q, x) && x.dumps(FeedbackOf(q, x)) ==>
              if RevisionAnswer(q, x).None? then StopsAt(q, x) == Order(RevisionCall)
              else StopsAt(q, x) >= Order(OutputGuard)
  {
    hide StopsAt, FeedbackOf, DraftOf, NeedsWork;
    Advance(q, x, RevisionPrompt);
    if !Fails(RevisionPrompt, q, x) {
      Advance(q, x, RevisionCall);
    }
  }

  /** The optional audit and the optional revision. The code raises when a counter has reached its
      limit; the assertions say that it never has. */
  method AuditPhase(q: Request, x: Externals, trace: TraceRecorder, log: EngineObservabilityLog, draft: string)
    returns (thrown: Option<Point>, text: string, audit: AuditGateState, calls: seq<Call>, phase: Phase)
    requires Ollama(q) && StopsAt(q, x) > Order(Inference)
    requires trace.status == Running && |log.events| == 3 && draft == DraftOf(q, x)
    modifies trace, log
    ensures StopsAt(q, x) >= Order(OutputGuard) || thrown.Some?
    ensures thrown.Some? ==> StopsAt(q, x) == Order(thrown.value) < Order(OutputGuard)
    ensures trace.status == Running && trace.steps == old(trace.steps) + AuditSteps(q, x)
    ensures log.events == old(log.events) + AuditEvents(q, x)
    ensures calls == AuditCalls(q, x) && phase == PhaseOf(q, x)
    ensures thrown.None? ==> text == TextOf(q, x) && audit == FinalAudit(q, x)
  {
    hide StopsAt, Clean, VerdictOf, Strip, DraftOf, StepOf, EventOf, ModelOf, Rejected, ChallengerMeta, VerdictMeta,
         RevisionMeta, ProviderMeta;
    AuditStops(q, x);
    text, calls, phase, thrown := draft, [], Provider, None;
    var auditPasses, revisionPasses, verdict, revised := 0, 0, Null, false;
    audit := AuditGateState(q.audit, auditPasses, revisionPasses, verdict, revised);
    if q.audit {
      assert auditPasses < MAX_AUDIT_PASSES;
      auditPasses := auditPasses + 1;
      phase := Audit;
      calls := calls + [AskChallenger(q.userPrompt, draft)];
      var feedback: Value;
      thrown, feedback := ChallengerPass(q, x, trace, log, draft, auditPasses);
      if thrown.Some? {
        return;
      }
      verdict := VerdictOf(feedback);
      RevisionStops(q, x);
      if verdict == Str("needs_work") {
        assert revisionPasses < MAX_REVISION_PASSES;
        revisionPasses := revisionPasses + 1;
        phase := Revision;
        var answer: string;
        thrown, answer := Revise(q, x, trace, log, draft, feedback, revisionPasses, ModelOf(q));
        if thrown != Some(RevisionPrompt) {
          calls := calls + [Regenerate(ModelOf(q), q.userPrompt, draft, feedback)];
        }
        if thrown.Some? {
          return;
        }
        text, revised := answer, true;
      }
      audit := AuditGateState(q.audit, auditPasses, revisionPasses, verdict, revised);
    }
  }

  /** The answer of an ollama run that returns. */
  function OllamaReply(q: Request, x: Externals, text: string, audit: AuditGateState, model: string, hash: string,
                       capability: Option<CapabilityMeta>, document: Value, events: seq<EngineEvent>): Reply
  {
    var state := q.state.(status := "ok", provider := "ollama", model := Some(model),
                          latencyMs := Some(LatencyOf(q, x)),
                          audit := audit);
    var auditMeta := AuditMeta(q.audit, audit.auditVerdict, audit.revised);
    Done(state,
         ExecutionResult(text, "ollama", Some(model), state.routeId, if q.audit then Some(auditMeta) else None,
                         Some(hash), Attached(capability)),
         document, events)
  }

  lemma OllamaReplies(q: Request, x: Externals)
    requires Ollama(q) && AssemblyOf(q, x).Some?
    ensures OllamaReply(q, x, TextOf(q, x), FinalAudit(q, x), ModelOf(q), AssemblyOf(q, x).value.promptHash,
                        CapabilityGiven(q, x), FinalTrace(q, x), Emitted(q, x)) ==
            Done(FinalState(q, x), FinalResult(q, x), FinalTrace(q, x), Emitted(q, x))
  {
    hide StopsAt, FinalTrace, Emitted, LatencyOf, TextOf, VerdictOf, FeedbackOf, NeedsWork, ModelOf;
  }

  lemma OllamaEnd(q: Request, x: Externals)
    requires Ollama(q) && StopsAt(q, x) >= Order(OutputGuard)
    ensures Rejected(CapabilityGiven(q, x)) ==> StopsAt(q, x) == Order(OutputGuard)
    ensures !Rejected(CapabilityGiven(q, x)) ==> StopsAt(q, x) == AT_END
  {
    hide StopsAt, Rejected, CapabilityGiven;
    Advance(q, x, OutputGuard);
  }

  /** The ollama provider's path. */
  method OllamaPath(q: Request, x: Externals, trace: TraceRecorder, log: EngineObservabilityLog,
                    capability: Option<CapabilityMeta>, calls: seq<Call>)
    returns (reply: Reply, calls': seq<Call>, phase: Phase)
    requires Ollama(q) && StopsAt(q, x) > Order(CapabilityCall)
    requires trace.status in {Created, Running} && trace.steps == CapabilitySteps(q, x)
    requires log.events == RoutedEvents(q)
    requires capability == CapabilityGiven(q, x) && calls == CapabilityCalls(q, x)
    modifies trace, log
    ensures Settled(reply, q, x, trace.status, trace.steps, log.events, calls', phase)
  {
    hide StopsAt, CapabilitySteps, CapabilityCalls, CapabilityGiven, RoutedEvents, AssemblyStep, InferenceStep, Clean,
         Closing, StepsOf, CallsOf, PhaseOf, Emitted, FinalState, FinalAudit, FinalResult, OllamaReply, CleanTrace,
         Rejected,
         TraceDict, Timings, CapabilityDict, Attached, AuditSteps, AuditCalls, AuditEvents, ProviderEvent, FinalPrompt,
         PromptOf, DraftOf, TextOf, ParseTarget, ClosingEvents;
    var thrown: Option<Point>, draft: string;
    thrown, draft, calls', phase := InferencePhase(q, x, trace, log, calls);
    if thrown.Some? {
      return Threw(thrown.value, None), calls', phase;
    }
    OllamaRecords(q, x);
    OllamaEvents(q, x);
    var text: string, audit: AuditGateState, auditCalls: seq<Call>;
    thrown, text, audit, auditCalls, phase := AuditPhase(q, x, trace, log, draft);
    calls' := calls' + auditCalls;
    if thrown.Some? {
      return Threw(thrown.value, None), calls', phase;
    }
    OllamaEnd(q, x);
    OllamaReplies(q, x);
    StepsAreClean(q, x);
    var ok, document := Finish(q, x, trace, log, capability, "ollama", Some(ModelOf(q)));
    if !ok {
      return Threw(OutputGuard, None), calls', phase;
    }
    reply := OllamaReply(q, x, text, audit, ModelOf(q), AssemblyOf(q, x).value.promptHash, capability, document,
                         log.events);
  }

  /** The body of `run`, up to its return or its first exception. */
  method Attempt(q: Request, x: Externals, trace: TraceRecorder, log: EngineObservabilityLog)
    returns (reply: Reply, calls: seq<Call>, phase: Phase)
    requires trace.status == Created && trace.steps == [] && log.events == []
    modifies trace, log
    ensures Settled(reply, q, x, trace.status, trace.steps, log.events, calls, phase)
  {
    hide StopsAt, CapabilitySteps, CapabilityCalls, CapabilityGiven, CapabilityStep, Clean, StepsOf, CallsOf, PhaseOf,
         Emitted,
         FinalState, FinalResult, FinalTrace, StartedMeta, RouteMeta;
    var emitted := log.Emit(RunStarted, q.state.requestId, q.state.taskSpecId, StartedMeta(q.state));
    var thrown: Option<Point>, capability: Option<CapabilityMeta>;
    thrown, capability, calls, phase := CapabilityPhase(q, x, trace);
    if thrown.Some? {
      return Threw(thrown.value, None), calls, phase;
    }
    emitted := log.Emit(RouteResolved, q.state.requestId, q.state.taskSpecId, RouteMeta(q.state));
    if q.state.provider != "ollama" {
      reply, calls := NullPath(q, x, trace, log, capability, calls);
    } else {
      reply, calls, phase := OllamaPath(q, x, trace, log, capability, calls);
    }
  }

  /** `run`: the body, then on an exception the handler that closes the trace, reports the failure
      and tries to attach its envelope before the exception goes on. */
  method Run(q: Request, x: Externals)
    returns (reply: Reply, trace: TraceRecorder, log: EngineObservabilityLog, calls: seq<Call>)
    ensures fresh(trace) && fresh(log)
    ensures reply == ReplyOf(q, x)
    ensures log.events == EventsOf(q, x)
    ensures trace.steps == StepsOf(q, x) && trace.status == StatusOf(q, x)
    ensures calls == CallsOf(q, x)
  {
    hide StopsAt, StepsOf, CallsOf, PhaseOf, Emitted, Clean, FinalState, FinalResult, FinalTrace, FailedMeta,
         CapabilityCalls;
    trace := new TraceRecorder(q.state.requestId);
    log := new EngineObservabilityLog();
    var phase: Phase;
    reply, calls, phase := Attempt(q, x, trace, log);
    EmittedIsShort(q, x);
    if reply.Threw? {
      if trace.status !in {Completed, Failed} {
        var closed := trace.Transition(Failed);
      }
      var (kind, code) := x.classify(reply.point, phase);
      var failure := RuntimeFailure(kind, code, q.state.requestId, q.state.taskSpecId);
      var reported := log.Emit(RunFailed, q.state.requestId, q.state.taskSpecId, FailedMeta(kind, code, phase));
      reply := Threw(reply.point, if x.attachable(reply.point) then Some(failure) else None);
    }
  }

  /** Room for the failure event is always left. */
  lemma EmittedIsShort(q: Request, x: Externals)
    ensures |Emitted(q, x)| <= 7
  {
  }
}
