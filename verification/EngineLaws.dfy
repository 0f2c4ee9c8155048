/** What every engine run keeps (io_iii/core/engine.py). */
module EngineLaws {
  import opened Values
  import opened ContentSafety
  import opened SessionStates
  import opened ExecutionTraces
  import opened EngineLogs
  import opened Engine

  // ---- The event word ---------------------------------------------------------------

  function AuditWord(audited: bool, revised: bool): seq<EngineEventKind> {
    (if audited then [ChallengerAuditComplete] else []) + (if revised then [RevisionComplete] else [])
  }

  /** What a run has to say before it closes. */
  function Story(audited: bool, revised: bool): seq<EngineEventKind> {
    [RunStarted, RouteResolved] + ([ProviderExecutionComplete] + AuditWord(audited, revised))
  }

  /** The events of a run that returns. */
  function Word(audited: bool, revised: bool): seq<EngineEventKind> {
    Story(audited, revised) + [OutputEmitted, RunComplete]
  }

  lemma KindsConcat(a: seq<EngineEvent>, b: seq<EngineEvent>)
    ensures Kinds(a + b) == Kinds(a) + Kinds(b)
  {
  }

  lemma PrefixUnder<T>(a: seq<T>, p: seq<T>, w: seq<T>)
    requires p <= w
    ensures a + p <= a + w && a <= a + w
  {
  }

  lemma AuditKinds(q: Request, x: Externals)
    ensures Kinds(AuditEvents(q, x)) <= AuditWord(Audited(q), NeedsWork(q, x))
    ensures StopsAt(q, x) >= Order(OutputGuard) ==> Kinds(AuditEvents(q, x)) == AuditWord(Audited(q), NeedsWork(q, x))
  {
    hide StopsAt, VerdictMeta, RevisionMeta, VerdictOf, FeedbackOf, Audited;
  }

  lemma ProviderKinds(q: Request, x: Externals)
    requires StopsAt(q, x) > Order(CapabilityCall)
    ensures var p := Kinds(ProviderEvents(q, x));
            var w := [ProviderExecutionComplete] + AuditWord(Audited(q), NeedsWork(q, x));
            if StopsAt(q, x) == AT_END then p == w + [OutputEmitted, RunComplete] else p <= w
  {
    hide StopsAt, AuditEvents, AuditWord, NeedsWork, ProviderEvent, ClosingEvents, Kinds;
    var provided := [ProviderEvent(q)] + AuditEvents(q, x);
    AuditKinds(q, x);
    EndKinds(q, x);
    KindsConcat([ProviderEvent(q)], AuditEvents(q, x));
    KindsConcat(provided, ClosingEvents(q, x));
    PrefixUnder([ProviderExecutionComplete], Kinds(AuditEvents(q, x)), AuditWord(Audited(q), NeedsWork(q, x)));
    assert ClosingEvents(q, x) == [] ==> provided + ClosingEvents(q, x) == provided;
  }

  lemma EndKinds(q: Request, x: Externals)
    ensures Kinds([ProviderEvent(q)]) == [ProviderExecutionComplete]
    ensures if StopsAt(q, x) == AT_END then Kinds(ClosingEvents(q, x)) == [OutputEmitted, RunComplete]
            else ClosingEvents(q, x) == []
    ensures Kinds([]) == []
  {
    hide StopsAt, ProviderMeta, CompleteMeta, StepsOf;
  }

  lemma EmittedKinds(q: Request, x: Externals)
    ensures var told := Kinds(Emitted(q, x));
            var story := Story(Audited(q), NeedsWork(q, x));
            if StopsAt(q, x) == AT_END then told == story + [OutputEmitted, RunComplete]
            else [RunStarted] <= told <= story
  {
    hide StopsAt, ProviderEvents, AuditWord, NeedsWork, StartedMeta, RouteMeta;
    if StopsAt(q, x) > Order(CapabilityCall) {
      ProviderKinds(q, x);
      var routed := StartEvents(q) + [EventOf(q, RouteResolved, RouteMeta(q.state))];
      assert Emitted(q, x) == routed + ProviderEvents(q, x);
      KindsConcat(routed, ProviderEvents(q, x));
      assert Kinds(routed) == [RunStarted, RouteResolved];
      if StopsAt(q, x) < AT_END {
        PrefixUnder(Kinds(routed), Kinds(ProviderEvents(q, x)),
                    [ProviderExecutionComplete] + AuditWord(Audited(q), NeedsWork(q, x)));
      }
    } else {
      assert Kinds(Emitted(q, x)) == [RunStarted];
    }
  }

  /** A run that returns logs exactly its word. One that raises logs a beginning of the word's
      story and then one failure event. The log never fills up. */
  lemma EventsAreOneWord(q: Request, x: Externals)
    ensures NeedsWork(q, x) ==> Audited(q)
    ensures ReplyOf(q, x).Done? ==> Kinds(EventsOf(q, x)) == Word(Audited(q), NeedsWork(q, x))
    ensures ReplyOf(q, x).Threw? ==>
              var told := Kinds(Emitted(q, x));
              && Kinds(EventsOf(q, x)) == told + [RunFailed]
              && [RunStarted] <= told <= Story(Audited(q), NeedsWork(q, x))
              && RunFailed !in told && RunComplete !in told
    ensures |EventsOf(q, x)| <= 8 < MAX_EVENTS
  {
    hide StopsAt, Emitted, FinalState, FinalResult, FinalTrace, FailedMeta, FeedbackOf, VerdictOf;
    EmittedKinds(q, x);
    EmittedIsShort(q, x);
    KindsConcat(Emitted(q, x), EventsOf(q, x)[|Emitted(q, x)|..]);
    assert EventsOf(q, x) == Emitted(q, x) + EventsOf(q, x)[|Emitted(q, x)|..];
  }

  // ---- Where a run stops ------------------------------------------------------------

  /** A run returns exactly when nothing on its path fails, and otherwise raises at the first point that does. */
  lemma RaisesAtFirstFailure(q: Request, x: Externals)
    ensures ReplyOf(q, x).Done? <==> forall p: Point :: !Fails(p, q, x)
    ensures ReplyOf(q, x).Threw? ==>
              && Fails(ReplyOf(q, x).point, q, x)
              && forall p: Point :: Order(p) < Order(ReplyOf(q, x).point) ==> !Fails(p, q, x)
  {
    hide StopsAt, Fails, FinalState, FinalResult, FinalTrace, EventsOf, EnvelopeOf;
    Stopping(q, x);
    forall p: Point | Order(p) < StopsAt(q, x)
      ensures !Fails(p, q, x)
    {
      NotBefore(q, x, p);
    }
  }

  lemma NotBefore(q: Request, x: Externals, p: Point)
    requires Order(p) < StopsAt(q, x)
    ensures !Fails(p, q, x)
  {
    hide Fails;
    PointAt(p);
  }

  /** The trace ends completed or failed. It is completed although the run raised exactly when the
      capability's output is all that was rejected, since that guard comes after the completion. */
  lemma TraceIsTerminal(q: Request, x: Externals)
    ensures StatusOf(q, x) in {Completed, Failed} && ValidTransitions(StatusOf(q, x)) == {}
    ensures ReplyOf(q, x).Done? ==> StatusOf(q, x) == Completed
    ensures ReplyOf(q, x).Threw? && StatusOf(q, x) == Completed <==>
            Rejected(CapabilityGiven(q, x)) && forall p: Point :: p != OutputGuard ==> !Fails(p, q, x)
  {
    hide StopsAt, FinalState, FinalResult, FinalTrace, EventsOf, EnvelopeOf, Rejected, CapabilityGiven;
    RaisesAtFirstFailure(q, x);
    Stopping(q, x);
    assert forall p: Point :: p != OutputGuard <==> Order(p) < Order(OutputGuard);
    assert Fails(OutputGuard, q, x) == Rejected(CapabilityGiven(q, x));
  }

  /** Such a run: the capability returns an output with the forbidden key "content". */
  lemma RejectedOutputLeavesCompletedTrace(state: SessionState, others: Externals)
    requires state.provider == "null"
    ensures var output := Dict(map[Name("content") := Str("text")]);
            var q := Request(state, "", false, Bundle, "echo", Null, None);
            var x := others.(
              dumps := (v: Value) => true, nullRun := (mode: string, routeId: string) => Some(""),
              capability := (id: string, p: Value) =>
                Delivered(CapabilityMeta("echo", "v1", "demo", true, None, 0, output)));
            && ReplyOf(q, x).Threw? && ReplyOf(q, x).point == OutputGuard
            && StatusOf(q, x) == Completed
  {
    hide FinalState, FinalResult, FinalTrace, EventsOf, EnvelopeOf, StopsAt;
    var output := Dict(map[Name("content") := Str("text")]);
    var q := Request(state, "", false, Bundle, "echo", Null, None);
    var x := others.(
      dumps := (v: Value) => true, nullRun := (mode: string, routeId: string) => Some(""),
      capability := (id: string, p: Value) => Delivered(CapabilityMeta("echo", "v1", "demo", true, None, 0, output)));
    assert !AllowedKey(Name("content"), DEFAULT_FORBIDDEN_KEYS) && Name("content") in output.entries;
    Advance(q, x, DepsCheck);
    Advance(q, x, PayloadCheck);
    Advance(q, x, CapabilityCall);
    NullStops(q, x);
    PointAt(OutputGuard);
  }

  // ---- Stages and calls ---------------------------------------------------------------

  function StageOf(c: Call): string {
    match c
    case InvokeCapability(_, _) => "capability_execution"
    case RunNull(_, _) => "provider_run"
    case Assemble(_) => "context_assembly"
    case Generate(_, _) => "provider_inference"
    case AskChallenger(_, _) => "challenger_audit"
    case Regenerate(_, _, _, _) => "revision_inference"
  }

  function CallStages(calls: seq<Call>): seq<string> {
    seq(|calls|, i requires 0 <= i < |calls| => StageOf(calls[i]))
  }

  /** The stages of the whole path, in order. */
  function Path(q: Request, x: Externals): seq<string> {
    CapabilityPath(q) +
    if Ollama(q) then ["context_assembly"] + (["provider_inference"] + AuditPath(q, x)) else ["provider_run"]
  }

  function CapabilityPath(q: Request): seq<string> {
    if UsesCapability(q) then ["capability_execution"] else []
  }

  function AuditPath(q: Request, x: Externals): seq<string> {
    if Audited(q) then ["challenger_audit"] + (if NeedsWork(q, x) then ["revision_inference"] else []) else []
  }

  lemma StagesConcat(a: seq<TraceStep>, b: seq<TraceStep>, c: seq<Call>, d: seq<Call>)
    ensures Stages(a + b) == Stages(a) + Stages(b)
    ensures CallStages(c + d) == CallStages(c) + CallStages(d)
  {
  }

  lemma AuditStages(q: Request, x: Externals)
    ensures Stages(AuditSteps(q, x)) == CallStages(AuditCalls(q, x)) <= AuditPath(q, x)
    ensures StopsAt(q, x) == AT_END ==> Stages(AuditSteps(q, x)) == AuditPath(q, x)
  {
    hide StopsAt, ChallengerMeta, ProviderMeta, DraftOf, FeedbackOf, VerdictOf, ModelOf;
  }

  lemma OllamaStages(q: Request, x: Externals)
    requires Ollama(q) && StopsAt(q, x) >= Order(Inference)
    ensures Stages(StepsOf(q, x)) == CallStages(CallsOf(q, x)) <= Path(q, x)
    ensures StopsAt(q, x) == AT_END ==> Stages(StepsOf(q, x)) == Path(q, x)
  {
    hide StopsAt, StepsOf, CallsOf, AuditSteps, AuditCalls, AuditPath, Stages, CallStages;
    var steps := CapabilitySteps(q, x) + [AssemblyStep(q, x)] + [InferenceStep(q, x)];
    var calls := CapabilityCalls(q, x) + [Assemble(q.userPrompt)] + [Generate(ModelOf(q), PromptOf(q, x))];
    var front := CapabilityPath(q) + ["context_assembly", "provider_inference"];
    OllamaRecords(q, x);
    AuditStages(q, x);
    FrontStages(q, x);
    StagesConcat(steps, AuditSteps(q, x), calls, AuditCalls(q, x));
    PrefixUnder(front, Stages(AuditSteps(q, x)), AuditPath(q, x));
    assert Path(q, x) == front + AuditPath(q, x);
  }

  lemma FrontStages(q: Request, x: Externals)
    requires Ollama(q) && StopsAt(q, x) >= Order(Inference)
    ensures Stages(CapabilitySteps(q, x) + [AssemblyStep(q, x)] + [InferenceStep(q, x)]) ==
            CallStages(CapabilityCalls(q, x) + [Assemble(q.userPrompt)] + [Generate(ModelOf(q), PromptOf(q, x))]) ==
            CapabilityPath(q) + ["context_assembly", "provider_inference"]
  {
    hide StopsAt, PayloadOf, PromptOf, ModelOf, AssemblyMeta, ProviderMeta, CapabilityStepMeta, UsesCapability;
  }

  lemma NullStages(q: Request, x: Externals)
    requires !Ollama(q) && StopsAt(q, x) > Order(CapabilityCall)
    ensures Stages(StepsOf(q, x)) == CallStages(CallsOf(q, x)) == Path(q, x)
  {
    hide StopsAt, StepsOf, CallsOf, CapabilitySteps, CapabilityCalls, CapabilityPath, NullStepMeta;
    NullRecords(q, x);
    CapabilityStages(q, x);
    StagesConcat(CapabilitySteps(q, x), [StepOf(x, "provider_run", NullStepMeta())], CapabilityCalls(q, x),
                 [RunNull(q.state.mode, q.state.routeId)]);
  }

  lemma OtherStages(q: Request, x: Externals)
    requires StopsAt(q, x) < Order(Inference) && (Ollama(q) || StopsAt(q, x) <= Order(CapabilityCall))
    ensures Stages(StepsOf(q, x)) == CallStages(CallsOf(q, x)) <= Path(q, x)
  {
    hide StopsAt, StepsOf, CallsOf, CapabilitySteps, CapabilityCalls, CapabilityPath, AuditPath, AssemblyMeta;
    CapabilityStages(q, x);
    if StopsAt(q, x) <= Order(CapabilityCall) {
      EarlyRecords(q, x);
    } else {
      OllamaEarly(q, x);
      StagesConcat(CapabilitySteps(q, x), [AssemblyStep(q, x)], CapabilityCalls(q, x), [Assemble(q.userPrompt)]);
    }
  }

  lemma CapabilityStages(q: Request, x: Externals)
    ensures Stages(CapabilitySteps(q, x)) == CallStages(CapabilityCalls(q, x)) <= CapabilityPath(q)
    ensures StopsAt(q, x) >= Order(CapabilityCall) ==> Stages(CapabilitySteps(q, x)) == CapabilityPath(q)
  {
    hide StopsAt, PayloadOf, CapabilityStepMeta;
  }

  /** Each recorded step is one external call, in the order of the path, and a run that returns has
      recorded the whole path. */
  lemma StepsFollowThePath(q: Request, x: Externals)
    ensures Stages(StepsOf(q, x)) == CallStages(CallsOf(q, x)) <= Path(q, x)
    ensures ReplyOf(q, x).Done? ==> Stages(StepsOf(q, x)) == Path(q, x)
  {
    hide StopsAt, StepsOf, CallsOf, Path, FinalState, FinalResult, FinalTrace, EventsOf;
    if Ollama(q) && StopsAt(q, x) >= Order(Inference) {
      OllamaStages(q, x);
    } else if !Ollama(q) && StopsAt(q, x) > Order(CapabilityCall) {
      NullStages(q, x);
    } else {
      OtherStages(q, x);
    }
  }

  // ---- Audit and revision bounds ---------------------------------------------------------

  predicate IsGeneration(c: Call) {
    c.Generate? || c.Regenerate?
  }

  function Generations(calls: seq<Call>): nat {
    if calls == [] then 0 else Generations(calls[..|calls| - 1]) + if IsGeneration(calls[|calls| - 1]) then 1 else 0
  }

  function Challenges(calls: seq<Call>): nat {
    if calls == [] then 0 else Challenges(calls[..|calls| - 1]) + if calls[|calls| - 1].AskChallenger? then 1 else 0
  }

  lemma {:induction false} CountsConcat(a: seq<Call>, b: seq<Call>)
    ensures Generations(a + b) == Generations(a) + Generations(b)
    ensures Challenges(a + b) == Challenges(a) + Challenges(b)
    decreases |b|
  {
    if b == [] {
      assert a + b == a;
    } else {
      assert (a + b)[..|a + b| - 1] == a + b[..|b| - 1];
      CountsConcat(a, b[..|b| - 1]);
    }
  }

  lemma CountsOfOne(c: Call)
    ensures Generations([c]) == if IsGeneration(c) then 1 else 0
    ensures Challenges([c]) == if c.AskChallenger? then 1 else 0
  {
    assert [c][..0] == [];
  }

  lemma FrontCounts(q: Request, x: Externals)
    ensures var calls := CapabilityCalls(q, x) + [Assemble(q.userPrompt)] + [Generate(ModelOf(q), PromptOf(q, x))];
            Generations(calls) == 1 && Challenges(calls) == 0
  {
    hide StopsAt, PromptOf, Generations, Challenges;
    CountsConcat(CapabilityCalls(q, x), [Assemble(q.userPrompt)]);
    CountsConcat(CapabilityCalls(q, x) + [Assemble(q.userPrompt)], [Generate(ModelOf(q), PromptOf(q, x))]);
    CountsOfOne(Assemble(q.userPrompt));
    CountsOfOne(Generate(ModelOf(q), PromptOf(q, x)));
    CapabilityCounts(q, x);
  }

  lemma CapabilityCounts(q: Request, x: Externals)
    ensures Generations(CapabilityCalls(q, x)) == 0 && Challenges(CapabilityCalls(q, x)) == 0
  {
    hide StopsAt;
    CountsOfOne(InvokeCapability(q.capabilityId, PayloadOf(q)));
  }

  lemma AuditCounts(q: Request, x: Externals)
    ensures var calls := AuditCalls(q, x);
            && Generations(calls) <= Challenges(calls) <= 1
            && (StopsAt(q, x) == AT_END ==>
                  && Challenges(calls) == (if Audited(q) then 1 else 0)
                  && Generations(calls) == (if NeedsWork(q, x) then 1 else 0))
  {
    hide StopsAt, DraftOf, FeedbackOf, VerdictOf;
    var ask := AskChallenger(q.userPrompt, DraftOf(q, x));
    var again := Regenerate(ModelOf(q), q.userPrompt, DraftOf(q, x), FeedbackOf(q, x));
    CountsOfOne(ask);
    CountsOfOne(again);
    CountsConcat([ask], [again]);
  }

  lemma EarlyCounts(q: Request, x: Externals)
    requires StopsAt(q, x) < Order(Inference) || !Ollama(q)
    ensures Generations(CallsOf(q, x)) == Challenges(CallsOf(q, x)) == 0
  {
    hide StopsAt, Generations, Challenges, CapabilityCalls, CallsOf;
    CapabilityCounts(q, x);
    CountsOfOne(RunNull(q.state.mode, q.state.routeId));
    CountsOfOne(Assemble(q.userPrompt));
    CountsConcat(CapabilityCalls(q, x), [RunNull(q.state.mode, q.state.routeId)]);
    CountsConcat(CapabilityCalls(q, x), [Assemble(q.userPrompt)]);
    if StopsAt(q, x) <= Order(CapabilityCall) {
      EarlyRecords(q, x);
    } else if !Ollama(q) {
      NullRecords(q, x);
    } else {
      OllamaEarly(q, x);
    }
  }

  lemma LateCounts(q: Request, x: Externals)
    requires Ollama(q) && StopsAt(q, x) >= Order(Inference)
    ensures Generations(CallsOf(q, x)) == 1 + Generations(AuditCalls(q, x))
    ensures Challenges(CallsOf(q, x)) == Challenges(AuditCalls(q, x))
  {
    hide StopsAt, CallsOf, Generations, Challenges, AuditCalls;
    OllamaRecords(q, x);
    FrontCounts(q, x);
    CountsConcat(CapabilityCalls(q, x) + [Assemble(q.userPrompt)] + [Generate(ModelOf(q), PromptOf(q, x))],
                 AuditCalls(q, x));
  }

  /** No run generates more than twice or asks the challenger more than once. One that returns on the
      ollama path reports exactly what it did: the counters, whether the challenger asked for
      work, and one generation more than there were revisions. */
  lemma AuditIsBounded(q: Request, x: Externals)
    ensures Generations(CallsOf(q, x)) <= 1 + Challenges(CallsOf(q, x)) <= 2
    ensures ReplyOf(q, x).Done? && !Ollama(q) ==> Generations(CallsOf(q, x)) == Challenges(CallsOf(q, x)) == 0
    ensures ReplyOf(q, x).Done? && Ollama(q) ==>
              var audit := ReplyOf(q, x).state.audit;
              && audit.revisionPasses <= audit.auditPasses <= MAX_AUDIT_PASSES
              && audit.auditPasses == Challenges(CallsOf(q, x))
              && Generations(CallsOf(q, x)) == 1 + audit.revisionPasses
              && (audit.revised <==> audit.auditVerdict == Str("needs_work"))
              && (audit.revised <==> audit.revisionPasses == 1)
  {
    hide StopsAt, CallsOf, Generations, Challenges, AuditCalls, FinalResult, FinalTrace, EventsOf;
    AuditCounts(q, x);
    if Ollama(q) && StopsAt(q, x) >= Order(Inference) {
      LateCounts(q, x);
    } else {
      EarlyCounts(q, x);
    }
  }
}
