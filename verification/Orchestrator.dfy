/** The orchestrated run (io_iii/core/orchestrator.py) and what the runbook layer sees of it. */
module Orchestrator {
  import opened Values
  import opened SessionStates
  import opened Runbooks
  import opened Oracles
  import opened Engine
  import EngineLaws
  import EngineAnswers
  import Runner
  import RunnerLaws
  import ReplayResume
  import ResumeChains

  /** What surrounds one orchestrated run: the resolved route, if routing does not raise, the
      identifiers drawn, the engine's externals and the world afterwards. */
  datatype Setting = Setting(
    after: World,
    route: Option<RouteInfo>,
    requestId: string,
    startedAtMs: int,
    contextLimit: Option<int>,
    externals: Externals)

  function InitialState(spec: TaskSpec, route: RouteInfo, requestId: string, startedAtMs: int,
                        audit: bool): SessionState {
    SessionState(requestId, startedAtMs, "v1", None, route.mode, Some(route), AuditGateState(audit, 0, 0, Null, false),
                 "ok", route.selectedProvider, None, route.mode, Some(spec.taskSpecId), None, Work)
  }

  function EngineRequest(spec: TaskSpec, s: Setting, audit: bool, payload: Value): Request
    requires s.route.Some?
  {
    var capability := if spec.capabilities == [] then "" else spec.capabilities[0];
    Request(InitialState(spec, s.route.value, s.requestId, s.startedAtMs, audit), spec.prompt, audit, Bundle,
            capability, if capability == "" then Null else payload, s.contextLimit)
  }

  /** Nothing raises before the engine is called. */
  predicate Preflight(spec: TaskSpec, s: Setting, audit: bool) {
    && |spec.capabilities| <= 1
    && s.route.Some?
    && ValidState(InitialState(spec, s.route.value, s.requestId, s.startedAtMs, audit))
  }

  /** The orchestrator's answer: a refusal before the engine runs, the engine's own reply, or the
      check after it. */
  datatype Answer = Refused | Ran(reply: Engine.Reply) | PostCheckFailed

  /** `run`: two checks around exactly one engine call. */
  method Orchestrate(spec: TaskSpec, s: Setting, audit: bool, payload: Value) returns (answer: Answer)
    ensures answer == if Preflight(spec, s, audit)
                      then Ran(ReplyOf(EngineRequest(spec, s, audit, payload), s.externals))
                      else Refused
  {
    hide ReplyOf;
    if |spec.capabilities| > 1 || s.route.None? {
      return Refused;
    }
    var state := InitialState(spec, s.route.value, s.requestId, s.startedAtMs, audit);
    if !ValidState(state) {
      return Refused;
    }
    var q := EngineRequest(spec, s, audit, payload);
    var reply, trace, log, calls := Engine.Run(q, s.externals);
    if reply.Done? {
      FinalStateIsValid(q, s.externals);
      if !ValidState(reply.state) {
        assert false;
        return PostCheckFailed;
      }
    }
    answer := Ran(reply);
  }

  /** The engine keeps the state invariants, whatever the outside answers: the check after it never fires. */
  lemma FinalStateIsValid(q: Request, x: Externals)
    requires ValidState(q.state)
    ensures ReplyOf(q, x).Done? ==> ValidState(ReplyOf(q, x).state)
  {
    hide StopsAt, FinalResult, FinalTrace, EventsOf, NeedsWork, VerdictOf, FeedbackOf, ModelOf;
  }

  // ---- Seen from the runbook layer ------------------------------------------------------

  /** Every run happens in a setting determined by the world and the specification. */
  type Wiring = (World, TaskSpec) -> Setting

  /** The oracle the runners call: no capability payload, the failure envelope if the exception took it. */
  function StepOracle(wire: Wiring, audit: bool): Oracle {
    (w: World, spec: TaskSpec) =>
      var s := wire(w, spec);
      if !Preflight(spec, s, audit) then Raised(s.after, None)
      else match ReplyOf(EngineRequest(spec, s, audit, Null), s.externals)
        case Done(state, result, _, _) => Returned(s.after, state, result)
        case Threw(_, failure) => Raised(s.after, failure)
  }

  /** What the runbook layer is told: the engine's state and result if it returned, its envelope if it
      raised, nothing more if it was never called, and the world after the setting in any case. */
  lemma StepOracleAnswers(wire: Wiring, audit: bool, w: World, spec: TaskSpec)
    ensures var s, reply := wire(w, spec), StepOracle(wire, audit)(w, spec);
            && reply.world == s.after
            && (!Preflight(spec, s, audit) ==> reply.Raised? && reply.failure.None?)
            && (Preflight(spec, s, audit) ==>
                  var engine := ReplyOf(EngineRequest(spec, s, audit, Null), s.externals);
                  && (reply.Returned? <==> engine.Done?)
                  && (engine.Done? ==> reply.state == engine.state && reply.result == engine.result)
                  && (engine.Threw? ==> reply.failure == engine.failure))
  {
    hide ReplyOf;
  }

  /** A failure of this step would carry its envelope: it comes from inside the engine, on an
      exception that takes attributes. */
  ghost predicate Vouched(wire: Wiring, audit: bool, w: World, spec: TaskSpec) {
    var s := wire(w, spec);
    && Preflight(spec, s, audit)
    && var q := EngineRequest(spec, s, audit, Null);
       forall p: Point ::
         Fails(p, q, s.externals) && (forall r: Point :: Order(r) < Order(p) ==> !Fails(r, q, s.externals))
         ==> s.externals.attachable(p)
  }

  /** A step raises without an envelope exactly when it is refused before the engine or the first
      point that fails raises an exception that cannot take one. */
  lemma RaisesBareIff(wire: Wiring, audit: bool, w: World, spec: TaskSpec)
    ensures var reply := StepOracle(wire, audit)(w, spec);
            reply.Raised? && reply.failure.None? <==> !Vouched(wire, audit, w, spec)
  {
    hide StopsAt, Fails, FinalState, FinalResult, FinalTrace, EventsOf, EnvelopeOf;
    var s := wire(w, spec);
    if Preflight(spec, s, audit) {
      var q, x := EngineRequest(spec, s, audit, Null), s.externals;
      EngineLaws.RaisesAtFirstFailure(q, x);
      if ReplyOf(q, x).Threw? {
        var p := ReplyOf(q, x).point;
        forall r: Point | Fails(r, q, x) && r != p
          ensures Order(r) >= Order(p) && Order(p) != Order(r)
        {
          OrderIsInjective(p, r);
        }
      }
    }
  }

  lemma OrderIsInjective(p: Point, r: Point)
    requires p != r
    ensures Order(p) != Order(r)
  {
  }

  ghost predicate AllExplained(outcomes: seq<Runner.StepOutcome>) {
    forall k | 0 <= k < |outcomes| :: outcomes[k].success || outcomes[k].failure.Some?
  }

  lemma {:induction false} FailuresExplained(orc: Oracle, h: Runner.Header, work: seq<Runner.Labelled>, w: World)
    requires forall i, v: World | 0 <= i < |work| :: var r := orc(v, work[i].spec); r.Raised? ==> r.failure.Some?
    ensures AllExplained(Runner.Exec(orc, h, work, w).outcomes)
    decreases |work|
  {
    if work != [] {
      var t := Runner.ExecStep(orc, h, work[0], w);
      var reply := orc(w, work[0].spec);
      assert AllExplained(t.outcomes) by {
        assert reply.Raised? ==> reply.failure.Some?;
      }
      if t.failed.None? {
        assert forall i | 0 <= i < |work[1..]| :: work[1..][i] == work[i + 1];
        FailuresExplained(orc, h, work[1..], t.world);
        var rest := Runner.Exec(orc, h, work[1..], t.world);
        assert AllExplained(t.outcomes + rest.outcomes);
      }
    }
  }

  lemma TailIsExplained(orc: Oracle, runId: string, source: string, rb: Runbook, start: nat, total: int,
                        mode: ReplayResume.Mode, d: ReplayResume.Draws, w: World)
    requires forall i, v: World | 0 <= i < |rb.steps| :: var r := orc(v, rb.steps[i]); r.Raised? ==> r.failure.Some?
    ensures ResumeChains.Explained(ReplayResume.ExecuteSpec(orc, runId, source, rb, start, total, mode, d, w))
  {
    var e := ReplayResume.ExecuteSpec(orc, runId, source, rb, start, total, mode, d, w);
    if e.ran.Some? && e.ran.value.result.terminatedEarly {
      var tail := Runbook(rb.runbookId, ReplayResume.Tail(rb.steps, start));
      var work := Runner.Numbered(tail.steps, 0);
      forall i, v: World | 0 <= i < |work|
        ensures var r := orc(v, work[i].spec); r.Raised? ==> r.failure.Some?
      {
        assert work[i].spec == rb.steps[start + i];
      }
      FailuresExplained(orc, Runner.Header(tail.runbookId, |tail.steps|), work, w);
      RunnerLaws.RunFields(orc, tail, w);
      RunnerLaws.PlainAccounting(orc, tail, w);
    }
  }

  /** If every step is vouched for, every checkpoint a replay or resume stores can be loaded again. */
  lemma VouchedRunsLeaveLoadableCheckpoints(wire: Wiring, audit: bool, files: Files, runId: string, source: string,
                                            rb: Runbook, start: nat, mode: ReplayResume.Mode,
                                            d: ReplayResume.Draws, w: World)
    requires forall i, v: World | 0 <= i < |rb.steps| :: Vouched(wire, audit, v, rb.steps[i])
    ensures var orc := StepOracle(wire, audit);
            var e := ReplayResume.ExecuteSpec(orc, runId, source, rb, start, |rb.steps|, mode, d, w);
            ReplayResume.LoadAndValidate(files[runId := Document(e.checkpoint)], runId) ==
            ReplayResume.Valid(e.checkpoint)
  {
    hide ReplayResume.ExecuteSpec, ReplayResume.LoadAndValidate, Vouched, StepOracle;
    var orc := StepOracle(wire, audit);
    forall i, v: World | 0 <= i < |rb.steps|
      ensures var r := orc(v, rb.steps[i]); r.Raised? ==> r.failure.Some?
    {
      RaisesBareIff(wire, audit, v, rb.steps[i]);
    }
    TailIsExplained(orc, runId, source, rb, start, |rb.steps|, mode, d, w);
    ResumeChains.CheckpointAccepted(orc, files, runId, source, rb, start, |rb.steps|, mode, d, w);
  }

  /** If the first step of a slice is not vouched for, its checkpoint cannot be resumed: such a
      step is refused before the engine, as with two declared capabilities. */
  lemma BareFirstStepStrands(wire: Wiring, audit: bool, files: Files, runId: string, source: string, rb: Runbook,
                             start: nat, mode: ReplayResume.Mode, d: ReplayResume.Draws, w: World)
    requires start < |rb.steps| && !Vouched(wire, audit, w, rb.steps[start])
    ensures var orc := StepOracle(wire, audit);
            var e := ReplayResume.ExecuteSpec(orc, runId, source, rb, start, |rb.steps|, mode, d, w);
            ReplayResume.ResumePlan(files[runId := Document(e.checkpoint)], runId, d) ==
            ReplayResume.Refuse("CHECKPOINT_INTEGRITY_ERROR", Str(""))
  {
    hide Vouched, StepOracle, ReplayResume.ExecuteSpec, ReplayResume.ResumePlan;
    RaisesBareIff(wire, audit, w, rb.steps[start]);
    ResumeChains.UnexplainedFailureIsUnreadable(StepOracle(wire, audit), files, runId, source, rb, start, mode, d, w);
  }

  lemma TwoCapabilitiesAreRefused(wire: Wiring, audit: bool, w: World, spec: TaskSpec)
    requires |spec.capabilities| > 1
    ensures !Vouched(wire, audit, w, spec)
  {
  }

  // ---- What reaches the engine --------------------------------------------------------------

  /** The engine is called exactly for a task with at most one capability and an identifier that is not
      blank, on a resolved route with a provider, under a request id and a time that is not negative. */
  lemma PreflightIff(spec: TaskSpec, s: Setting, audit: bool)
    ensures Preflight(spec, s, audit) <==>
            && (spec.capabilities == [] || spec.capabilities == [spec.capabilities[0]])
            && s.route.Some? && s.route.value.selectedProvider != ""
            && s.requestId != "" && s.startedAtMs >= 0
            && spec.taskSpecId.Str? && Strip(spec.taskSpecId.text) != ""
  {
    hide Strip;
  }

  /** The engine is asked what the task says: its prompt, its one capability if it declares one, with the
      payload only then, and the audit as the caller wants it, on the route that was resolved. */
  lemma EngineIsAskedForTheTask(spec: TaskSpec, s: Setting, audit: bool, payload: Value)
    requires Preflight(spec, s, audit)
    ensures var q := EngineRequest(spec, s, audit, payload);
            && q.userPrompt == spec.prompt && q.audit == audit && q.deps.Bundle? && q.contextLimit == s.contextLimit
            && q.capabilityId == (if spec.capabilities == [] then "" else spec.capabilities[0])
            && (q.capabilityId != "" ==> q.payload == payload)
            && q.state.taskSpecId == Some(spec.taskSpecId) && q.state.requestId == s.requestId
            && q.state.startedAtMs == s.startedAtMs && q.state.route == s.route
            && q.state.mode == q.state.routeId == s.route.value.mode
            && q.state.provider == s.route.value.selectedProvider
            && q.state.audit == AuditGateState(audit, 0, 0, Null, false) && q.state.status == "ok"
            && q.state.errorCode.None? && q.state.sessionMode == Work
  {
    hide ValidState;
  }

  /** A declared capability is invoked: an orchestrated run that returns made it its first call, with the
      payload it was given. */
  lemma DeclaredCapabilityIsInvoked(spec: TaskSpec, s: Setting, audit: bool, payload: Value)
    requires Preflight(spec, s, audit) && spec.capabilities != [] && spec.capabilities[0] != ""
    requires ReplyOf(EngineRequest(spec, s, audit, payload), s.externals).Done?
    ensures var calls := CallsOf(EngineRequest(spec, s, audit, payload), s.externals);
            && calls != []
            && calls[0] == InvokeCapability(spec.capabilities[0], if payload.Null? then Dict(map[]) else payload)
  {
    hide ValidState, ReplyOf, CallsOf, EngineAnswers.IsFed, EngineLaws.CallStages;
    var q := EngineRequest(spec, s, audit, payload);
    EngineAnswers.CallsOfAReturn(q, s.externals);
    FirstCallInvokes(q, s.externals);
    EngineAnswers.CallsAreFed(q, s.externals, 0);
    FirstIsFed(q, s.externals);
  }

  lemma FirstCallInvokes(q: Request, x: Externals)
    requires q.deps.Bundle? && q.capabilityId != "" && ReplyOf(q, x).Done?
    ensures CallsOf(q, x) != [] && CallsOf(q, x)[0].InvokeCapability?
  {
    hide ReplyOf, CallsOf;
    EngineAnswers.CallsOfAReturn(q, x);
    var stages := EngineLaws.CallStages(CallsOf(q, x));
    assert stages != [] && stages[0] == "capability_execution";
    assert EngineLaws.StageOf(CallsOf(q, x)[0]) == "capability_execution";
  }

  lemma FirstIsFed(q: Request, x: Externals)
    requires CallsOf(q, x) != [] && CallsOf(q, x)[0].InvokeCapability? && EngineAnswers.IsFed(CallsOf(q, x), 0, q, x)
    ensures CallsOf(q, x)[0] == InvokeCapability(q.capabilityId, if q.payload.Null? then Dict(map[]) else q.payload)
  {
    hide CallsOf;
  }
}
