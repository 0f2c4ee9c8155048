/** What an engine run answers, in terms of what the outside told it (io_iii/core/engine.py). */
module EngineAnswers {
  import opened Values
  import opened ContentSafety
  import opened Runbooks
  import opened SessionStates
  import opened Oracles
  import opened ExecutionTraces
  import opened EngineLogs
  import opened Engine
  import opened EngineLaws

  // ---- The routing target --------------------------------------------------------------

  /** The model of a target is what follows its first colon, trimmed; nothing on either side may be blank. */
  ghost predicate NamesModel(target: string, model: string) {
    exists i :: 0 <= i < |target| && SplitsAt(target, i) && model == Strip(target[i + 1..])
  }

  predicate SplitsAt(target: string, i: nat)
    requires i < |target|
  {
    target[i] == ':' && ':' !in target[..i] && Strip(target[..i]) != "" && Strip(target[i + 1..]) != ""
  }

  lemma ParseTargetIff(target: string, model: string)
    ensures ParseTarget(target) == Some(model) <==> NamesModel(target, model)
  {
    hide Strip;
    var first := FirstColon(target);
    if first.Some? {
      forall i | 0 <= i < |target| && SplitsAt(target, i)
        ensures i == first.value
      {
        OneFirstColon(target, i, first.value);
      }
      if ParseTarget(target) == Some(model) {
        assert SplitsAt(target, first.value);
      }
    }
  }

  lemma OneFirstColon(s: string, i: nat, j: nat)
    requires i < |s| && s[i] == ':' && ':' !in s[..i]
    requires j < |s| && s[j] == ':' && ':' !in s[..j]
    ensures i == j
  {
    assert forall k | 0 <= k < i :: s[..i][k] == s[k] && s[k] != ':';
    assert forall k | 0 <= k < j :: s[..j][k] == s[k] && s[k] != ':';
  }

  /** The code of a capability failure is the part of the message in front of its first colon, for messages
      that begin as such codes do. */
  lemma CapabilityErrorCodeMeaning(message: string)
    ensures var code := CapabilityErrorCode(message);
            if "CAPABILITY_" <= message
            then code <= message && ':' !in code && (code == message || message[|code|] == ':')
            else code == "CAPABILITY_EXCEPTION"
  {
  }

  // ---- Every call gets what the calls before it answered -----------------------------------

  /** What call number k passes, in terms of the request and the answers to the calls in front of it. */
  ghost predicate IsFed(calls: seq<Call>, k: nat, q: Request, x: Externals)
    requires k < |calls|
  {
    match calls[k]
    case InvokeCapability(id, payload) =>
      && k == 0 && q.deps.Bundle? && id == q.capabilityId != ""
      && payload == if q.payload.Null? then Dict(map[]) else q.payload
    case RunNull(mode, routeId) =>
      q.state.provider != "ollama" && mode == q.state.mode && routeId == q.state.routeId
    case Assemble(userPrompt) =>
      q.state.provider == "ollama" && userPrompt == q.userPrompt
    case Generate(model, prompt) =>
      && k >= 1 && calls[k - 1].Assemble?
      && q.state.route.Some? && q.state.route.value.selectedTarget.Some?
      && NamesModel(q.state.route.value.selectedTarget.value, model)
      && var assembled := x.assemble(calls[k - 1].userPrompt);
         && assembled.Some?
         && prompt == assembled.value.systemPrompt + "\n\nUser:\n" + assembled.value.userPrompt + "\n\nIO-III:"
    case AskChallenger(userPrompt, draft) =>
      && k >= 1 && calls[k - 1].Generate?
      && q.audit && userPrompt == q.userPrompt
      && var text := x.infer(calls[k - 1].model, calls[k - 1].prompt);
         text.Some? && draft == Strip(text.value)
    case Regenerate(model, userPrompt, draft, feedback) =>
      && k >= 2 && calls[k - 2].Generate? && calls[k - 1].AskChallenger?
      && model == calls[k - 2].model && userPrompt == q.userPrompt && draft == calls[k - 1].draft
      && x.challenge(userPrompt, draft) == Some(feedback)
      && feedback.Dict? && feedback.Get("verdict") == Str("needs_work")
  }

  lemma FedAudit(q: Request, x: Externals)
    requires Ollama(q) && StopsAt(q, x) >= Order(Inference)
    ensures var calls := [Generate(ModelOf(q), PromptOf(q, x))] + AuditCalls(q, x);
            forall k | 1 <= k < |calls| :: IsFed(calls, k, q, x)
  {
    hide StopsAt, NamesModel, ModelOf, PromptOf, Strip;
    if AuditCalls(q, x) != [] {
      NotBefore(q, x, Inference);
      if NeedsWork(q, x) && StopsAt(q, x) >= Order(RevisionCall) {
        NotBefore(q, x, Challenge);
        NotBefore(q, x, VerdictReport);
      }
    }
  }

  /** A call is fed by at most the two calls in front of it. */
  lemma FedAfter(front: seq<Call>, calls: seq<Call>, k: nat, q: Request, x: Externals)
    requires k < |calls| && IsFed(calls, k, q, x) && !calls[k].InvokeCapability?
    ensures IsFed(front + calls, |front| + k, q, x)
  {
    hide NamesModel;
    var all := front + calls;
    assert all[|front| + k] == calls[k];
    assert k >= 1 ==> all[|front| + k - 1] == calls[k - 1];
    assert k >= 2 ==> all[|front| + k - 2] == calls[k - 2];
  }

  /** Whatever happens, every external call of a run is given exactly what the request and the answers to
      the calls before it say. */
  lemma CallsAreFed(q: Request, x: Externals, k: nat)
    requires k < |CallsOf(q, x)|
    ensures IsFed(CallsOf(q, x), k, q, x)
  {
    hide StopsAt, IsFed, CallsOf, CapabilityCalls;
    var capability := CapabilityCalls(q, x);
    if k < |capability| {
      CapabilityIsFed(q, x);
    } else if StopsAt(q, x) <= Order(CapabilityCall) {
      EarlyRecords(q, x);
    } else if !Ollama(q) {
      NullRecords(q, x);
      var run := [RunNull(q.state.mode, q.state.routeId)];
      NullIsFed(q, x);
      FedAfter(capability, run, 0, q, x);
    } else if StopsAt(q, x) < Order(Inference) {
      OllamaEarly(q, x);
      AssembleIsFed(q, x, []);
      assert [Assemble(q.userPrompt)] + [] == [Assemble(q.userPrompt)];
      FedAfter(capability, [Assemble(q.userPrompt)], 0, q, x);
    } else {
      LateCallsAreFed(q, x, k);
    }
  }

  lemma CapabilityIsFed(q: Request, x: Externals)
    ensures forall k | 0 <= k < |CapabilityCalls(q, x)| :: IsFed(CallsOf(q, x), k, q, x)
  {
    hide StopsAt, NamesModel, InferenceCalls;
  }

  lemma NullIsFed(q: Request, x: Externals)
    requires !Ollama(q)
    ensures IsFed([RunNull(q.state.mode, q.state.routeId)], 0, q, x)
  {
  }

  lemma AssembleIsFed(q: Request, x: Externals, rest: seq<Call>)
    requires Ollama(q)
    ensures IsFed([Assemble(q.userPrompt)] + rest, 0, q, x)
  {
  }

  lemma GenerateIsFed(q: Request, x: Externals, rest: seq<Call>)
    requires Ollama(q) && StopsAt(q, x) >= Order(Inference)
    ensures IsFed([Assemble(q.userPrompt)] + ([Generate(ModelOf(q), PromptOf(q, x))] + rest), 1, q, x)
  {
    hide StopsAt, NamesModel, ParseTarget;
    NotBefore(q, x, TargetPresent);
    NotBefore(q, x, TargetFormat);
    NotBefore(q, x, Assembly);
    ParseTargetIff(TargetOf(q), ModelOf(q));
  }

  lemma LateCallsAreFed(q: Request, x: Externals, k: nat)
    requires Ollama(q) && StopsAt(q, x) >= Order(Inference)
    requires |CapabilityCalls(q, x)| <= k < |CallsOf(q, x)|
    ensures IsFed(CallsOf(q, x), k, q, x)
  {
    hide StopsAt, IsFed, CallsOf, CapabilityCalls, AuditCalls, ModelOf, PromptOf;
    var capability := CapabilityCalls(q, x);
    var first, later := [Assemble(q.userPrompt)], [Generate(ModelOf(q), PromptOf(q, x))] + AuditCalls(q, x);
    OllamaRecords(q, x);
    assert CallsOf(q, x) == capability + (first + later);
    var j := k - |capability|;
    if j == 0 {
      AssembleIsFed(q, x, later);
    } else if j == 1 {
      GenerateIsFed(q, x, AuditCalls(q, x));
    } else {
      FedAudit(q, x);
      AuditCallsOnly(q, x, j - 2);
      FedAfter(first, later, j - 1, q, x);
    }
    LateKinds(q, x, j);
    FedAfter(capability, first + later, j, q, x);
  }

  lemma AuditCallsOnly(q: Request, x: Externals, j: nat)
    requires j < |AuditCalls(q, x)|
    ensures !AuditCalls(q, x)[j].InvokeCapability?
  {
    hide StopsAt;
  }

  lemma LateKinds(q: Request, x: Externals, j: nat)
    requires j < 2 + |AuditCalls(q, x)|
    ensures var later := [Generate(ModelOf(q), PromptOf(q, x))] + AuditCalls(q, x);
            !([Assemble(q.userPrompt)] + later)[j].InvokeCapability?
  {
    hide AuditCalls;
    if j >= 2 {
      AuditCallsOnly(q, x, j - 2);
    }
  }

  // ---- The answer ----------------------------------------------------------------------------

  /** The message is the answer to the last call that asks for text: trimmed from a model, as it is from
      the null provider. A draft is the answer exactly if nobody audits it or its audit asks for no work. */
  ghost predicate AnswersLast(calls: seq<Call>, message: string, q: Request, x: Externals) {
    && calls != []
    && var n := |calls| - 1;
       match calls[n]
       case RunNull(mode, routeId) => x.nullRun(mode, routeId) == Some(message)
       case Generate(model, prompt) =>
         var text := x.infer(model, prompt);
         !q.audit && text.Some? && message == Strip(text.value)
       case AskChallenger(userPrompt, draft) =>
         var feedback := x.challenge(userPrompt, draft);
         && n >= 1 && calls[n - 1].Generate?
         && feedback.Some? && feedback.value.Dict? && feedback.value.Get("verdict") != Str("needs_work")
         && var text := x.infer(calls[n - 1].model, calls[n - 1].prompt);
            text.Some? && message == Strip(text.value)
       case Regenerate(model, userPrompt, draft, feedback) =>
         var text := x.revise(model, userPrompt, draft, feedback);
         text.Some? && message == Strip(text.value)
       case _ => false
  }

  lemma AuditAnswers(q: Request, x: Externals)
    requires Ollama(q) && StopsAt(q, x) == AT_END
    ensures AnswersLast([Generate(ModelOf(q), PromptOf(q, x))] + AuditCalls(q, x), TextOf(q, x), q, x)
  {
    hide StopsAt, ModelOf, PromptOf, Strip;
    NotBefore(q, x, Inference);
    NotBefore(q, x, Challenge);
    NotBefore(q, x, VerdictReport);
    NotBefore(q, x, RevisionCall);
  }

  lemma AnswersAfter(front: seq<Call>, calls: seq<Call>, message: string, q: Request, x: Externals)
    requires AnswersLast(calls, message, q, x)
    ensures AnswersLast(front + calls, message, q, x)
  {
    var all, n := front + calls, |calls| - 1;
    assert all[|all| - 1] == calls[n];
    assert n >= 1 ==> all[|all| - 2] == calls[n - 1];
  }

  /** A run that returns answers with the last text it was given. */
  lemma MessageIsLastAnswer(q: Request, x: Externals)
    requires ReplyOf(q, x).Done?
    ensures AnswersLast(CallsOf(q, x), ReplyOf(q, x).result.message, q, x)
  {
    hide StopsAt, AnswersLast, CallsOf, CapabilityCalls, TextOf, AuditCalls, ModelOf, PromptOf, ReplyOf;
    MessageIsText(q, x);
    if Ollama(q) {
      OllamaRecords(q, x);
      var front := CapabilityCalls(q, x) + [Assemble(q.userPrompt)];
      var later := [Generate(ModelOf(q), PromptOf(q, x))] + AuditCalls(q, x);
      AuditAnswers(q, x);
      AnswersAfter(front, later, TextOf(q, x), q, x);
      assert CallsOf(q, x) == front + later;
    } else {
      NullRecords(q, x);
      NullAnswers(q, x);
      AnswersAfter(CapabilityCalls(q, x), [RunNull(q.state.mode, q.state.routeId)], TextOf(q, x), q, x);
    }
  }

  lemma MessageIsText(q: Request, x: Externals)
    requires ReplyOf(q, x).Done?
    ensures StopsAt(q, x) == AT_END && ReplyOf(q, x).result.message == TextOf(q, x)
  {
    hide StopsAt, TextOf, FinalState, FinalTrace, EventsOf;
  }

  lemma NullAnswers(q: Request, x: Externals)
    requires !Ollama(q) && StopsAt(q, x) == AT_END
    ensures AnswersLast([RunNull(q.state.mode, q.state.routeId)], TextOf(q, x), q, x)
  {
    hide StopsAt;
    NotBefore(q, x, NullRun);
  }

  // ---- When a run returns ----------------------------------------------------------------------

  ghost predicate CapabilitySucceeds(q: Request, x: Externals) {
    var payload := if q.payload.Null? then Dict(map[]) else q.payload;
    && payload.Dict? && (forall k | k in payload.entries :: k.Name?) && x.dumps(payload)
    && var answer := x.capability(q.capabilityId, payload);
       answer.Delivered? && !HasForbidden(answer.meta.output, DEFAULT_FORBIDDEN_KEYS)
  }

  ghost predicate GenerationSucceeds(q: Request, x: Externals, target: string) {
    exists model :: NamesModel(target, model) && x.factory && PromptSucceeds(q, x, model)
  }

  ghost predicate PromptSucceeds(q: Request, x: Externals, model: string) {
    var assembled := x.assemble(q.userPrompt);
    && assembled.Some?
    && var prompt := assembled.value.systemPrompt + "\n\nUser:\n" + assembled.value.userPrompt + "\n\nIO-III:";
       && q.contextLimit.Some? && (q.contextLimit.value <= 0 || |prompt| <= q.contextLimit.value)
       && var text := x.infer(model, prompt);
          text.Some? && (q.audit ==> AuditSucceeds(q, x, model, Strip(text.value)))
  }

  ghost predicate AuditSucceeds(q: Request, x: Externals, model: string, draft: string) {
    var feedback := x.challenge(q.userPrompt, draft);
    && feedback.Some? && feedback.value.Dict?
    && !HasForbidden(feedback.value.Get("verdict"), DEFAULT_FORBIDDEN_KEYS)
    && (feedback.value.Get("verdict") == Str("needs_work") ==>
          x.dumps(feedback.value) && x.revise(model, q.userPrompt, draft, feedback.value).Some?)
  }

  /** A run returns exactly if every check it makes passes and every call it makes is answered. */
  lemma ReturnsIff(q: Request, x: Externals)
    ensures ReplyOf(q, x).Done? <==>
            && !q.deps.Foreign?
            && (q.deps.Bundle? && q.capabilityId != "" ==> CapabilitySucceeds(q, x))
            && if q.state.provider != "ollama" then x.nullRun(q.state.mode, q.state.routeId).Some?
               else
                 && q.state.route.Some? && q.state.route.value.selectedTarget.Some?
                 && GenerationSucceeds(q, x, q.state.route.value.selectedTarget.value)
  {
    hide StopsAt, Fails, CapabilitySucceeds, GenerationSucceeds, FinalState, FinalResult, FinalTrace, EventsOf,
         EnvelopeOf;
    RaisesAtFirstFailure(q, x);
    CapabilityPasses(q, x);
    GenerationPasses(q, x);
    NullPasses(q, x);
    assert forall p: Point :: Order(p) <= Order(OutputGuard);
  }

  lemma CapabilityPasses(q: Request, x: Externals)
    ensures Fails(DepsCheck, q, x) <==> q.deps.Foreign?
    ensures !Fails(PayloadCheck, q, x) && !Fails(CapabilityCall, q, x) && !Fails(OutputGuard, q, x) <==>
            (q.deps.Bundle? && q.capabilityId != "" ==> CapabilitySucceeds(q, x))
  {
    hide Clean, HasForbidden;
    if CapabilityAnswer(q, x).Delivered? {
      CleanIffNoForbiddenKey(CapabilityAnswer(q, x).meta.output, DEFAULT_FORBIDDEN_KEYS);
    }
  }

  lemma NullPasses(q: Request, x: Externals)
    ensures !Fails(NullRun, q, x) <==>
            (q.state.provider != "ollama" ==> x.nullRun(q.state.mode, q.state.routeId).Some?)
  {
  }

  /** No point of the ollama path fails. */
  ghost predicate OllamaPasses(q: Request, x: Externals) {
    && !Fails(TargetPresent, q, x) && !Fails(TargetFormat, q, x) && !Fails(Factory, q, x) && !Fails(Assembly, q, x)
    && !Fails(ContextLimit, q, x) && !Fails(Inference, q, x) && AuditPasses(q, x)
  }

  ghost predicate AuditPasses(q: Request, x: Externals) {
    && !Fails(Challenge, q, x) && !Fails(VerdictReport, q, x)
    && !Fails(RevisionPrompt, q, x) && !Fails(RevisionCall, q, x)
  }

  lemma GenerationPasses(q: Request, x: Externals)
    ensures OllamaPasses(q, x) <==>
            (q.state.provider == "ollama" ==>
               && q.state.route.Some? && q.state.route.value.selectedTarget.Some?
               && GenerationSucceeds(q, x, q.state.route.value.selectedTarget.value))
  {
    hide AuditPasses, NamesModel, ParseTarget, AuditSucceeds, Strip;
    if Ollama(q) ==> AssemblyOf(q, x).Some? && x.infer(ModelOf(q), PromptOf(q, x)).Some? {
      AuditPassesIff(q, x);
    }
    ParseTargetIff(TargetOf(q), ModelOf(q));
    if Ollama(q) && OllamaPasses(q, x) {
      assert NamesModel(TargetOf(q), ModelOf(q)) && PromptSucceeds(q, x, ModelOf(q));
    }
    if && Ollama(q) && q.state.route.Some? && q.state.route.value.selectedTarget.Some?
       && GenerationSucceeds(q, x, TargetOf(q))
    {
      var model :| NamesModel(TargetOf(q), model) && x.factory && PromptSucceeds(q, x, model);
      ParseTargetIff(TargetOf(q), model);
      EmptyNamesNothing(model);
      assert ParseTarget(TargetOf(q)) == Some(model) && model == ModelOf(q);
      assert TargetOf(q) != "";
      assert OllamaPasses(q, x);
    }
  }

  lemma EmptyNamesNothing(model: string)
    ensures !NamesModel("", model)
  {
  }

  lemma AuditPassesIff(q: Request, x: Externals)
    requires Ollama(q) ==> AssemblyOf(q, x).Some? && x.infer(ModelOf(q), PromptOf(q, x)).Some?
    ensures AuditPasses(q, x) <==> (Audited(q) ==> AuditSucceeds(q, x, ModelOf(q), DraftOf(q, x)))
  {
    hide Clean, HasForbidden, ModelOf, PromptOf, Strip;
    CleanIffNoForbiddenKey(VerdictOf(FeedbackOf(q, x)), DEFAULT_FORBIDDEN_KEYS);
  }

  // ---- What a run reports --------------------------------------------------------------------------

  /** A run that returns has made every call its request asks for. */
  lemma CallsOfAReturn(q: Request, x: Externals)
    requires ReplyOf(q, x).Done?
    ensures var stages := CallStages(CallsOf(q, x));
            var invoked := if q.deps.Bundle? && q.capabilityId != "" then ["capability_execution"] else [];
            if q.state.provider != "ollama" then stages == invoked + ["provider_run"]
            else
              var generated := invoked + ["context_assembly", "provider_inference"];
              if q.audit then generated + ["challenger_audit"] <= stages else stages == generated
  {
    hide StopsAt, NeedsWork, ReplyOf, CallStages, Stages, AuditPath;
    StepsFollowThePath(q, x);
    if Ollama(q) {
      AuditPathBegins(q, x);
    }
    assert q.state.provider == "ollama" ==>
           Path(q, x) == CapabilityPath(q) + ["context_assembly", "provider_inference"] + AuditPath(q, x);
    var front := CapabilityPath(q) + ["context_assembly", "provider_inference"];
    assert front + [] == front;
    PrefixUnder(front, ["challenger_audit"], if Audited(q) then AuditPath(q, x) else ["challenger_audit"]);
  }

  lemma AuditPathBegins(q: Request, x: Externals)
    requires q.state.provider == "ollama"
    ensures if q.audit then ["challenger_audit"] <= AuditPath(q, x) else AuditPath(q, x) == []
  {
  }

  /** The fields of the answer. */
  lemma ReturnedResult(q: Request, x: Externals)
    requires ReplyOf(q, x).Done?
    ensures var r := ReplyOf(q, x).result;
            && r.routeId == q.state.routeId
            && (q.state.provider != "ollama" ==>
                  r.provider == "null" && r.model.None? && r.auditMeta.None? && r.promptHash.None?)
            && (q.state.provider == "ollama" ==>
                  && r.provider == "ollama" && r.model.Some?
                  && x.assemble(q.userPrompt).Some? && r.promptHash == Some(x.assemble(q.userPrompt).value.promptHash)
                  && (r.auditMeta.Some? <==> q.audit))
  {
    hide StopsAt, FinalState, FinalTrace, EventsOf, ModelOf, TextOf, CapabilityGiven, NeedsWork, VerdictOf, FeedbackOf;
    NotBefore(q, x, Assembly);
  }

  /** The audit that is reported is the audit that was made: its verdict is the challenger's, and a
      revision is reported exactly if one was generated. */
  lemma ReportedAudit(q: Request, x: Externals)
    requires ReplyOf(q, x).Done? && q.state.provider == "ollama" && q.audit
    ensures var calls, audit := CallsOf(q, x), ReplyOf(q, x).result.auditMeta;
            && audit.Some? && audit.value.auditUsed && calls != []
            && (audit.value.revised <==> calls[|calls| - 1].Regenerate?)
            && exists k :: 0 <= k < |calls| && IsVerdictOf(calls[k], audit.value.auditVerdict, x)
  {
    hide StopsAt, FinalState, FinalTrace, EventsOf, TextOf, CapabilityCalls, CapabilityGiven, DraftOf, PromptOf,
         ModelOf, FeedbackOf, VerdictOf, IsVerdictOf, CallsOf;
    OllamaRecords(q, x);
    ChallengeIsAmongCalls(q, x);
  }

  lemma ChallengeIsAmongCalls(q: Request, x: Externals)
    requires Audited(q) && StopsAt(q, x) > Order(VerdictReport)
    ensures exists k :: 0 <= k < |CallsOf(q, x)| && IsVerdictOf(CallsOf(q, x)[k], VerdictOf(FeedbackOf(q, x)), x)
  {
    hide StopsAt, CallsOf, CapabilityCalls, PromptOf, ModelOf, DraftOf;
    OllamaRecords(q, x);
    NotBefore(q, x, Challenge);
    NotBefore(q, x, VerdictReport);
    var front := CapabilityCalls(q, x) + [Assemble(q.userPrompt)] + [Generate(ModelOf(q), PromptOf(q, x))];
    assert CallsOf(q, x)[|front|] == AuditCalls(q, x)[0] == AskChallenger(q.userPrompt, DraftOf(q, x));
  }

  predicate IsVerdictOf(c: Call, verdict: Value, x: Externals) {
    && c.AskChallenger?
    && var feedback := x.challenge(c.userPrompt, c.draft);
       feedback.Some? && feedback.value.Dict? && feedback.value.Get("verdict") == verdict
  }

  /** The capability's result is attached exactly if one was asked for, with what the capability returned. */
  lemma AttachedCapability(q: Request, x: Externals)
    requires ReplyOf(q, x).Done?
    ensures var attached := ReplyOf(q, x).result.capability;
            && (attached.Some? <==> q.deps.Bundle? && q.capabilityId != "")
            && (attached.Some? ==>
                  var payload := if q.payload.Null? then Dict(map[]) else q.payload;
                  var answer := x.capability(q.capabilityId, payload);
                  && answer.Delivered? && attached.value.Dict?
                  && attached.value.Get("output") == answer.meta.output
                  && attached.value.Get("capability_id") == Str(answer.meta.capabilityId)
                  && attached.value.Get("ok") == Bool(answer.meta.ok)
                  && attached.value.Get("error_code") == OptStr(answer.meta.errorCode))
  {
    hide StopsAt, FinalState, FinalTrace, EventsOf, ModelOf, TextOf, NeedsWork, VerdictOf, FeedbackOf, CapabilityDict;
    NotBefore(q, x, CapabilityCall);
    if CapabilityAnswer(q, x).Delivered? {
      CapabilityDictReads(CapabilityAnswer(q, x).meta);
    }
  }

  lemma CapabilityDictReads(m: CapabilityMeta)
    ensures var d := CapabilityDict(m);
            && d.Dict? && d.Get("output") == m.output && d.Get("capability_id") == Str(m.capabilityId)
            && d.Get("version") == Str(m.version) && d.Get("category") == Str(m.category)
            && d.Get("ok") == Bool(m.ok) && d.Get("error_code") == OptStr(m.errorCode)
            && d.Get("duration_ms") == Int(m.durationMs)
  {
  }

  /** A returned state is the initial one with the outcome of the run, and nothing else changed. */
  lemma ReturnedState(q: Request, x: Externals)
    requires ReplyOf(q, x).Done?
    ensures var s := ReplyOf(q, x).state;
            && s == q.state.(latencyMs := s.latencyMs, audit := s.audit, status := "ok", provider := s.provider,
                             model := s.model)
            && s.provider == ReplyOf(q, x).result.provider && s.model == ReplyOf(q, x).result.model
            && s.latencyMs.Some? && s.latencyMs.value >= 0
            && (x.nowMs >= q.state.startedAtMs ==> s.latencyMs.value == x.nowMs - q.state.startedAtMs)
            && s.audit.auditEnabled == q.audit
            && (q.state.provider != "ollama" ==> s.audit == q.state.audit.(auditEnabled := q.audit))
  {
    hide StopsAt, FinalTrace, EventsOf, ModelOf, TextOf, NeedsWork, VerdictOf, FeedbackOf;
  }

  /** What an event of each kind says about the run. */
  predicate Says(kind: EngineEventKind, meta: Value, q: Request)
    requires meta.Dict?
  {
    match kind
    case RunStarted =>
      && meta.Get("mode") == Str(q.state.mode) && meta.Get("provider") == Str(q.state.provider)
      && meta.Get("caller") == Str(if q.state.taskSpecId.Some? then "orchestrator" else "cli")
    case RouteResolved =>
      && meta.Get("selected_provider") == Str(q.state.provider) && meta.Get("route_id") == Str(q.state.routeId)
      && meta.Get("fallback_used") == Bool(q.state.route.Some? && q.state.route.value.fallbackUsed)
    case ProviderExecutionComplete => SaysProvider(meta, q)
    case OutputEmitted => SaysProvider(meta, q)
    case ChallengerAuditComplete => meta.Get("audit_passes") == Int(1)
    case RevisionComplete => meta.Get("revision_passes") == Int(1)
    case _ => true
  }

  predicate SaysProvider(meta: Value, q: Request)
    requires meta.Dict?
  {
    && meta.Get("provider") == Str(if q.state.provider == "ollama" then "ollama" else "null")
    && (meta.Get("model").Null? <==> q.state.provider != "ollama")
  }

  ghost predicate OfTheRun(events: seq<EngineEvent>, q: Request) {
    forall i | 0 <= i < |events| ::
      && events[i].requestId == q.state.requestId && events[i].taskSpecId == q.state.taskSpecId
      && Says(events[i].kind, Dict(events[i].meta), q)
  }

  lemma OfTheRunConcat(a: seq<EngineEvent>, b: seq<EngineEvent>, q: Request)
    requires OfTheRun(a, q) && OfTheRun(b, q)
    ensures OfTheRun(a + b, q)
  {
  }

  lemma AuditEventsAreOfTheRun(q: Request, x: Externals)
    ensures OfTheRun(AuditEvents(q, x), q)
  {
    hide StopsAt, NeedsWork, VerdictOf, FeedbackOf;
  }

  lemma ProviderEventsAreOfTheRun(q: Request, x: Externals)
    ensures OfTheRun(ProviderEvents(q, x), q)
  {
    hide StopsAt, AuditEvents, StepsOf, ModelOf;
    AuditEventsAreOfTheRun(q, x);
    OfTheRunConcat([ProviderEvent(q)], AuditEvents(q, x), q);
    OfTheRunConcat([ProviderEvent(q)] + AuditEvents(q, x), ClosingEvents(q, x), q);
  }

  /** Every event carries the run's own identifiers and describes the run. */
  lemma EventsCarryTheRun(q: Request, x: Externals)
    ensures OfTheRun(EventsOf(q, x), q)
  {
    hide StopsAt, ProviderEvents, FailedMeta, PhaseOf;
    ProviderEventsAreOfTheRun(q, x);
  }

  /** The phase a failure at this point is classified under: that of the point, except for the guard of
      the capability's output, which comes last and finds the phase the run was in. */
  function PhaseFor(p: Point, q: Request, revised: bool): Phase {
    match p
    case PayloadCheck => Capability
    case CapabilityCall => Capability
    case Inference => Provider
    case Challenge => Audit
    case VerdictReport => Audit
    case RevisionPrompt => Revision
    case RevisionCall => Revision
    case OutputGuard =>
      if q.state.provider != "ollama" then Setup else if !q.audit then Provider else if revised then Revision else Audit
    case _ => Setup
  }

  lemma PhaseAtPoint(q: Request, x: Externals, p: Point)
    requires Fails(p, q, x) && StopsAt(q, x) == Order(p)
    ensures PhaseOf(q, x) == PhaseFor(p, q, NeedsWork(q, x))
  {
    hide StopsAt, VerdictOf, FeedbackOf, PayloadAccepted, OverLimit, Rejected, TargetOf, ParseTarget, Clean;
  }

  lemma PhaseAtFailure(q: Request, x: Externals)
    requires ReplyOf(q, x).Threw?
    ensures PhaseOf(q, x) == PhaseFor(ReplyOf(q, x).point, q, NeedsWork(q, x))
  {
    hide StopsAt, EnvelopeOf, PhaseOf, PhaseFor, NeedsWork, Fails;
    Stopping(q, x);
    StopsAtItsPoint(q, x);
    PhaseAtPoint(q, x, ReplyOf(q, x).point);
  }

  lemma StopsAtItsPoint(q: Request, x: Externals)
    requires StopsAt(q, x) < AT_END
    ensures Order(POINTS[StopsAt(q, x)]) == StopsAt(q, x)
  {
    hide StopsAt;
  }

  /** A run that raises reports how its failure was classified, in its last event and, if the exception
      takes attributes, in the envelope on it. */
  lemma FailureIsReported(q: Request, x: Externals)
    requires ReplyOf(q, x).Threw?
    ensures var p := ReplyOf(q, x).point;
            var (kind, code) := x.classify(p, PhaseOf(q, x));
            var events := EventsOf(q, x);
            && ReplyOf(q, x).failure ==
                 (if x.attachable(p)
                  then Some(RuntimeFailure(kind, code, q.state.requestId, q.state.taskSpecId))
                  else None)
            && events != [] && events[|events| - 1].kind == RunFailed
            && var meta := Dict(events[|events| - 1].meta);
               && meta.Get("failure_kind") == Str(kind) && meta.Get("failure_code") == Str(code)
               && meta.Get("phase") == Str(PhaseText(PhaseOf(q, x)))
  {
    hide StopsAt, Emitted, PhaseOf;
  }

  /** The trace a run returns is completed, belongs to the run and holds a step for every call. */
  lemma ReturnedTrace(q: Request, x: Externals)
    requires ReplyOf(q, x).Done?
    ensures var trace, calls := ReplyOf(q, x).trace, CallsOf(q, x);
            && trace.Dict? && trace.Get("status") == Str("completed") && trace.Get("trace_id") == Str(q.state.requestId)
            && trace.Get("steps").List? && |trace.Get("steps").items| == |calls|
            && forall k | 0 <= k < |calls| :: IsStepFor(trace.Get("steps").items[k], calls[k], x)
  {
    hide StopsAt, FinalState, FinalResult, EventsOf, StepsOf, CallsOf, Timings, TimingsDict, Path;
    StepsFollowThePath(q, x);
    TraceDictReads(q.state.requestId, Completed, x.traceStartMs, StepsOf(q, x), Timings(StepsOf(q, x)));
    StepsAreRecorded(q, x);
    assert |Stages(StepsOf(q, x))| == |CallStages(CallsOf(q, x))|;
    forall k | 0 <= k < |CallsOf(q, x)|
      ensures StepsOf(q, x)[k].stage == StageOf(CallsOf(q, x)[k])
    {
      assert Stages(StepsOf(q, x))[k] == CallStages(CallsOf(q, x))[k];
    }
  }

  predicate IsStepFor(step: Value, c: Call, x: Externals) {
    && step.Dict?
    && step.Get("stage") == Str(StageOf(c))
    && step.Get("started_at_ms") == Int(x.timing(StageOf(c)).0)
    && step.Get("duration_ms") == Int(x.timing(StageOf(c)).1)
  }

  /** What a step records: its own timing, and on the provider paths what was asked of whom. */
  predicate IsRecorded(s: TraceStep, q: Request, x: Externals) {
    var meta := Dict(s.meta);
    && (s.startedAtMs, s.durationMs) == x.timing(s.stage)
    && (s.stage == "provider_run" ==> meta.Get("provider") == Str("null"))
    && (s.stage == "context_assembly" ==> meta.Get("route_id") == Str(q.state.routeId))
    && (s.stage in {"provider_inference", "revision_inference"} ==>
          meta.Get("provider") == Str("ollama") && meta.Get("model").Str?)
    && (s.stage == "challenger_audit" ==> meta.Get("enabled") == Bool(true))
  }

  ghost predicate AllRecorded(steps: seq<TraceStep>, q: Request, x: Externals) {
    forall i | 0 <= i < |steps| :: IsRecorded(steps[i], q, x)
  }

  lemma RecordedConcat(a: seq<TraceStep>, b: seq<TraceStep>, q: Request, x: Externals)
    requires AllRecorded(a, q, x) && AllRecorded(b, q, x)
    ensures AllRecorded(a + b, q, x)
  {
    hide IsRecorded;
  }

  lemma CapabilityStepIsRecorded(q: Request, x: Externals)
    ensures IsRecorded(CapabilityStep(q, x), q, x)
  {
    hide CapabilityErrorCode, CapabilityStepMeta;
  }

  lemma NullStepIsRecorded(q: Request, x: Externals)
    ensures IsRecorded(StepOf(x, "provider_run", NullStepMeta()), q, x)
  {
  }

  lemma AssemblyStepIsRecorded(q: Request, x: Externals)
    ensures IsRecorded(AssemblyStep(q, x), q, x)
  {
  }

  lemma GenerationStepsAreRecorded(q: Request, x: Externals)
    ensures IsRecorded(InferenceStep(q, x), q, x)
    ensures IsRecorded(StepOf(x, "revision_inference", ProviderMeta("ollama", Some(ModelOf(q)))), q, x)
  {
    hide ModelOf;
  }

  lemma ChallengerStepIsRecorded(q: Request, x: Externals)
    ensures IsRecorded(StepOf(x, "challenger_audit", ChallengerMeta()), q, x)
  {
  }

  lemma AuditStepsAreRecorded(q: Request, x: Externals)
    ensures AllRecorded(AuditSteps(q, x), q, x)
  {
    hide StopsAt, IsRecorded, NeedsWork, StepOf;
    ChallengerStepIsRecorded(q, x);
    GenerationStepsAreRecorded(q, x);
  }

  /** Every step of every run is recorded like that. */
  lemma StepsAreRecorded(q: Request, x: Externals)
    ensures AllRecorded(StepsOf(q, x), q, x)
  {
    hide StopsAt, IsRecorded, AuditSteps, CapabilityStep, StepOf;
    CapabilityStepIsRecorded(q, x);
    NullStepIsRecorded(q, x);
    AssemblyStepIsRecorded(q, x);
    GenerationStepsAreRecorded(q, x);
    AuditStepsAreRecorded(q, x);
    RecordedConcat([InferenceStep(q, x)], AuditSteps(q, x), q, x);
    RecordedConcat([AssemblyStep(q, x)], InferenceSteps(q, x), q, x);
  }

  /** The capability's step says whether it succeeded, and with which code it failed. */
  lemma CapabilityStepReports(q: Request, x: Externals)
    requires UsesCapability(q) && StopsAt(q, x) >= Order(CapabilityCall)
    ensures StepsOf(q, x) != [] && StepsOf(q, x)[0].stage == "capability_execution"
    ensures var meta := Dict(StepsOf(q, x)[0].meta);
            && meta.Get("capability_id") == Str(q.capabilityId)
            && match x.capability(q.capabilityId, PayloadOf(q))
               case Delivered(m) => meta.Get("success") == Bool(m.ok) && meta.Get("error_code") == OptStr(m.errorCode)
               case Broke(message) =>
                 meta.Get("success") == Bool(false) && meta.Get("error_code") == Str(CapabilityErrorCode(message))
  {
    hide StopsAt, CapabilityErrorCode, InferenceSteps;
  }

  /** The last event of a run that returns counts its calls. */
  lemma CompletionCountsTheCalls(q: Request, x: Externals)
    requires ReplyOf(q, x).Done?
    ensures var events := EventsOf(q, x);
            && events != [] && events[|events| - 1].kind == RunComplete
            && Dict(events[|events| - 1].meta).Get("trace_step_count") == Int(|CallsOf(q, x)|)
  {
    hide StopsAt, StepsOf, CallsOf, AuditEvents, FinalState, FinalResult, FinalTrace;
    StepsFollowThePath(q, x);
    assert |Stages(StepsOf(q, x))| == |CallStages(CallsOf(q, x))|;
  }

  /** The verdict in the log is the challenger's. */
  lemma VerdictIsLogged(q: Request, x: Externals)
    requires AuditEvents(q, x) != []
    ensures var event := AuditEvents(q, x)[0];
            && event.kind == ChallengerAuditComplete
            && exists k :: 0 <= k < |CallsOf(q, x)| && IsVerdictOf(CallsOf(q, x)[k], Dict(event.meta).Get("verdict"), x)
  {
    hide StopsAt, CallsOf, IsVerdictOf, VerdictOf, FeedbackOf, RevisionEvents;
    ChallengeIsAmongCalls(q, x);
  }

  /** The state and the answer report one audit. */
  lemma StateReportsTheAudit(q: Request, x: Externals)
    requires ReplyOf(q, x).Done? && q.state.provider == "ollama"
    ensures var state, audit := ReplyOf(q, x).state.audit, ReplyOf(q, x).result.auditMeta;
            if audit.Some? then
              && state.auditVerdict == audit.value.auditVerdict && state.revised == audit.value.revised
              && state.auditPasses == 1
            else state == AuditGateState(false, 0, 0, Null, false)
  {
    hide StopsAt, FinalTrace, EventsOf, TextOf, VerdictOf, FeedbackOf, CapabilityGiven;
  }

  lemma PathIsDistinct(q: Request, x: Externals)
    ensures forall i, j | 0 <= i < j < |Path(q, x)| :: Path(q, x)[i] != Path(q, x)[j]
  {
    hide NeedsWork, Audited, Ollama, UsesCapability;
  }

  lemma StepsOfAReturn(q: Request, x: Externals)
    requires ReplyOf(q, x).Done?
    ensures var steps, calls := StepsOf(q, x), CallsOf(q, x);
            && |steps| == |calls|
            && (forall i | 0 <= i < |steps| :: steps[i].stage == StageOf(calls[i]))
            && forall i, j | 0 <= i < j < |steps| :: steps[i].stage != steps[j].stage
  {
    hide StepsOf, CallsOf, Path, ReplyOf, StageOf;
    var steps, calls := StepsOf(q, x), CallsOf(q, x);
    StepsFollowThePath(q, x);
    PathIsDistinct(q, x);
    assert |Stages(steps)| == |CallStages(calls)|;
    assert forall i | 0 <= i < |steps| :: steps[i].stage == Stages(steps)[i] == Path(q, x)[i];
    assert forall i | 0 <= i < |steps| :: steps[i].stage == CallStages(calls)[i] == StageOf(calls[i]);
  }

  /** The returned trace times every stage by its one step. */
  lemma ReturnedTimings(q: Request, x: Externals, k: nat)
    requires ReplyOf(q, x).Done? && k < |CallsOf(q, x)| && ReplyOf(q, x).trace.Dict?
    ensures var timings, stage := ReplyOf(q, x).trace.Get("stage_timings"), StageOf(CallsOf(q, x)[k]);
            timings.Dict? && timings.Get(stage) == Int(x.timing(stage).1)
  {
    hide StopsAt, FinalState, FinalResult, EventsOf, StepsOf, CallsOf, TimingsDict, StageDuration, StageOf;
    var steps := StepsOf(q, x);
    TraceDictReads(q.state.requestId, Completed, x.traceStartMs, steps, Timings(steps));
    TimingsRead(Timings(steps));
    StepsOfAReturn(q, x);
    SingleStage(steps, k);
    assert steps[k].stage in StagesSeen(steps);
    StepIsTimed(q, x, k);
  }

  lemma StepIsTimed(q: Request, x: Externals, k: nat)
    requires k < |StepsOf(q, x)|
    ensures StepsOf(q, x)[k].durationMs == x.timing(StepsOf(q, x)[k].stage).1
  {
    hide StepsOf;
    StepsAreRecorded(q, x);
  }
}
