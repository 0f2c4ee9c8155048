/** What the runners report, in terms of what the oracle answered (io_iii/core/runbook_runner.py). */
module RunnerAnswers {
  import opened Values
  import opened SessionStates
  import opened Runbooks
  import opened Oracles
  import opened Runner
  import opened RunnerLaws

  // ---- Worlds --------------------------------------------------------------------------

  /** Each call meets the world that the one before it left. */
  ghost predicate Threads(orc: Oracle, calls: seq<TaskSpec>, w: World, ws: seq<World>) {
    && |ws| == |calls| + 1 && ws[0] == w
    && forall k | 0 <= k < |calls| :: ws[k + 1] == orc(ws[k], calls[k]).world
  }

  /** An outcome holds exactly what the call returned or raised. */
  predicate Tells(o: StepOutcome, spec: TaskSpec, reply: Reply) {
    && o.taskSpecId == spec.taskSpecId
    && match reply
       case Returned(_, state, result) =>
         o.success && o.state == Some(state) && o.result == Some(result) && o.failure.None?
       case Raised(_, failure) =>
         !o.success && o.state.None? && o.result.None? && o.failure == failure
  }

  ghost predicate TellsAll(orc: Oracle, t: Trail, ws: seq<World>) {
    && |t.outcomes| == |t.calls| && |ws| == |t.calls| + 1
    && t.world == ws[|t.calls|]
    && forall k | 0 <= k < |t.calls| :: Tells(t.outcomes[k], t.calls[k], orc(ws[k], t.calls[k]))
  }

  lemma EffectThreads(orc: Oracle, h: Header, step: RunbookStep, ctx: WhenContext, index: nat, w: World)
    returns (ws: seq<World>)
    ensures var t := Effect(orc, h, step, ctx, index, w);
            Threads(orc, t.calls, w, ws) && TellsAll(orc, t, ws)
    ensures |ws| > 0
  {
    ws := if Runs(step, ctx) then [w, orc(w, step.taskSpec).world] else [w];
  }

  lemma ThreadsConcat(orc: Oracle, a: Trail, b: Trail, w: World, va: seq<World>, vb: seq<World>)
    requires Threads(orc, a.calls, w, va) && TellsAll(orc, a, va)
    requires Threads(orc, b.calls, a.world, vb) && TellsAll(orc, b, vb)
    ensures var ws := va + vb[1..];
            Threads(orc, a.Then(b).calls, w, ws) && TellsAll(orc, a.Then(b), ws)
  {
    var ws, n := va + vb[1..], |a.calls|;
    assert forall k | n <= k < |ws| :: ws[k] == vb[k - n];
    var t := a.Then(b);
    forall k | 0 <= k < |t.calls|
      ensures ws[k + 1] == orc(ws[k], t.calls[k]).world && Tells(t.outcomes[k], t.calls[k], orc(ws[k], t.calls[k]))
    {
      if k < n {
        assert Tells(a.outcomes[k], a.calls[k], orc(va[k], a.calls[k]));
      } else {
        assert Tells(b.outcomes[k - n], b.calls[k - n], orc(vb[k - n], b.calls[k - n]));
      }
    }
  }

  lemma {:induction false} StepsThread(orc: Oracle, h: Header, steps: seq<RunbookStep>, ctx: WhenContext, first: nat,
                                       w: World) returns (ws: seq<World>)
    ensures var t := ExecConditional(orc, h, steps, ctx, first, w);
            Threads(orc, t.calls, w, ws) && TellsAll(orc, t, ws)
    ensures |ws| > 0
    decreases |steps|
  {
    hide Effect, Threads, TellsAll;
    if steps == [] {
      ws := [w];
      IdleThreads(orc, w);
    } else {
      var t := Effect(orc, h, steps[0], ctx, first, w);
      ws := EffectThreads(orc, h, steps[0], ctx, first, w);
      if t.failed.None? {
        var rest := StepsThread(orc, h, steps[1..], ctx, first + 1, t.world);
        ThreadsConcat(orc, t, ExecConditional(orc, h, steps[1..], ctx, first + 1, t.world), w, ws, rest);
        ws := ws + rest[1..];
      }
    }
  }

  lemma IdleThreads(orc: Oracle, w: World)
    ensures Threads(orc, [], w, [w]) && TellsAll(orc, Idle(w), [w])
  {
  }

  /** A conditional run makes its calls one after the other, each in the world the one before it left, and
      ends in the last of these worlds. Outcome k holds exactly what call k returned or raised. */
  lemma ConditionalRunThreadsWorlds(orc: Oracle, rb: ConditionalRunbook, ctx: WhenContext, w: World)
    returns (ws: seq<World>)
    ensures var ran := RunWithContextSpec(orc, rb, ctx, w);
            && Threads(orc, ran.calls, w, ws) && ran.world == ws[|ran.calls|]
            && |ran.result.stepOutcomes| == |ran.calls|
            && forall k | 0 <= k < |ran.calls| ::
                 Tells(ran.result.stepOutcomes[k], ran.calls[k], orc(ws[k], ran.calls[k]))
  {
    hide ExecConditional, RunWithContextSpec;
    ConditionalRunFields(orc, rb, ctx, w);
    ws := StepsThread(orc, Header(rb.runbookId, |rb.steps|), rb.steps, ctx, 0, w);
  }

  /** The plain runner as a conditional one. */
  function Unconditional(rb: Runbook): ConditionalRunbook {
    ConditionalRunbook(rb.runbookId, seq(|rb.steps|, i requires 0 <= i < |rb.steps| => RunbookStep(rb.steps[i], None)))
  }

  /** The same for a plain run, whose calls are its steps up to the first that raises. */
  lemma RunThreadsWorlds(orc: Oracle, rb: Runbook, w: World) returns (ws: seq<World>)
    ensures var ran := RunSpec(orc, rb, w);
            && Threads(orc, ran.calls, w, ws) && ran.world == ws[|ran.calls|]
            && |ran.result.stepOutcomes| == |ran.calls| && ran.calls <= rb.steps
            && forall k | 0 <= k < |ran.calls| ::
                 Tells(ran.result.stepOutcomes[k], ran.calls[k], orc(ws[k], ran.calls[k]))
  {
    hide RunSpec, RunWithContextSpec, Threads, Tells;
    UnconditionalIsRun(orc, Unconditional(rb), WhenContext("", ""), rb, w);
    PlainAccounting(orc, rb, w);
    ws := ConditionalRunThreadsWorlds(orc, Unconditional(rb), WhenContext("", ""), w);
  }

  // ---- Events --------------------------------------------------------------------------------

  /** The two events of an executed step, read off its outcome. */
  function Told(h: Header, o: StepOutcome): seq<LifecycleEvent> {
    var i, id := o.stepIndex, o.taskSpecId;
    [LifecycleEvent(h, StepStarted(i, id)),
     LifecycleEvent(h,
       match (o.state, o.failure)
       case (Some(state), _) => StepCompleted(i, id, state.requestId)
       case (None, Some(f)) => StepFailed(i, id, Some(f.requestId), Some(f.kind), Some(f.code))
       case (None, None) => StepFailed(i, id, None, None, None))]
  }

  function ToldAll(h: Header, outcomes: seq<StepOutcome>): seq<LifecycleEvent> {
    if outcomes == [] then [] else Told(h, outcomes[0]) + ToldAll(h, outcomes[1..])
  }

  lemma {:induction false} ToldConcat(h: Header, a: seq<StepOutcome>, b: seq<StepOutcome>)
    ensures ToldAll(h, a + b) == ToldAll(h, a) + ToldAll(h, b)
    decreases |a|
  {
    hide Told;
    if a == [] {
      assert a + b == b;
    } else {
      assert (a + b)[1..] == a[1..] + b && (a + b)[0] == a[0];
      ToldConcat(h, a[1..], b);
    }
  }

  /** The marks a run leaves for the steps it skips. */
  ghost predicate SkipsAreTold(es: seq<LifecycleEvent>, h: Header, steps: seq<RunbookStep>, ctx: WhenContext,
                               first: nat) {
    forall i | 0 <= i < |es| && es[i].what.StepSkipped? ::
      && es[i].header == h
      && first <= es[i].what.index < first + |steps|
      && SkippedAs(es[i].what, steps[es[i].what.index - first], ctx)
  }

  predicate SkippedAs(what: What, step: RunbookStep, ctx: WhenContext)
    requires what.StepSkipped?
  {
    what.taskSpecId == step.taskSpec.taskSpecId && step.when.Some? && !EvaluateWhen(step.when.value, ctx)
  }

  lemma EffectIsTold(orc: Oracle, h: Header, step: RunbookStep, ctx: WhenContext, index: nat, w: World)
    ensures IsTold(Effect(orc, h, step, ctx, index, w), h, [step], ctx, index)
  {
    var t := Effect(orc, h, step, ctx, index, w);
    EffectExecutedOnly(orc, h, step, ctx, index, w);
    if Runs(step, ctx) {
      assert t.outcomes[1..] == [];
      assert t.events == Told(h, t.outcomes[0]) + [];
    }
  }

  lemma SkipsConcat(a: seq<LifecycleEvent>, b: seq<LifecycleEvent>, h: Header, steps: seq<RunbookStep>,
                    ctx: WhenContext, first: nat)
    requires steps != []
    requires SkipsAreTold(a, h, [steps[0]], ctx, first) && SkipsAreTold(b, h, steps[1..], ctx, first + 1)
    ensures SkipsAreTold(a + b, h, steps, ctx, first)
  {
    hide SkippedAs;
    var all := a + b;
    forall i | 0 <= i < |all| && all[i].what.StepSkipped?
      ensures && all[i].header == h && first <= all[i].what.index < first + |steps|
              && SkippedAs(all[i].what, steps[all[i].what.index - first], ctx)
    {
      if i < |a| {
        assert all[i] == a[i];
      } else {
        assert all[i] == b[i - |a|];
        assert steps[1..][all[i].what.index - (first + 1)] == steps[all[i].what.index - first];
      }
    }
  }

  ghost predicate IsTold(t: Trail, h: Header, steps: seq<RunbookStep>, ctx: WhenContext, first: nat) {
    && ExecutedOnly(t.events) == ToldAll(h, t.outcomes)
    && SkipsAreTold(t.events, h, steps, ctx, first)
    && (t.failed.Some? ==> t.outcomes != [] && t.outcomes[|t.outcomes| - 1] == t.failed.value)
  }

  lemma TrailsAreTold(a: Trail, b: Trail, h: Header, steps: seq<RunbookStep>, ctx: WhenContext, first: nat)
    requires steps != [] && IsTold(a, h, [steps[0]], ctx, first) && IsTold(b, h, steps[1..], ctx, first + 1)
    ensures IsTold(a.Then(b), h, steps, ctx, first)
  {
    hide ExecutedOnly, ToldAll, SkipsAreTold;
    ExecutedOnlyConcat(a.events, b.events);
    ToldConcat(h, a.outcomes, b.outcomes);
    SkipsConcat(a.events, b.events, h, steps, ctx, first);
  }

  lemma IdleIsTold(w: World, h: Header, ctx: WhenContext, first: nat)
    ensures IsTold(Idle(w), h, [], ctx, first)
  {
  }

  lemma StopsTold(t: Trail, h: Header, steps: seq<RunbookStep>, ctx: WhenContext, first: nat)
    requires steps != [] && IsTold(t, h, [steps[0]], ctx, first)
    ensures IsTold(t, h, steps, ctx, first)
  {
    hide ExecutedOnly, ToldAll;
    SkipsConcat(t.events, [], h, steps, ctx, first);
    assert t.events + [] == t.events;
  }

  lemma {:induction false} StepsAreTold(orc: Oracle, h: Header, steps: seq<RunbookStep>, ctx: WhenContext, first: nat,
                                        w: World)
    ensures IsTold(ExecConditional(orc, h, steps, ctx, first, w), h, steps, ctx, first)
    decreases |steps|
  {
    hide Effect, IsTold;
    if steps == [] {
      IdleIsTold(w, h, ctx, first);
    } else {
      var t := Effect(orc, h, steps[0], ctx, first, w);
      EffectIsTold(orc, h, steps[0], ctx, first, w);
      if t.failed.None? {
        StepsAreTold(orc, h, steps[1..], ctx, first + 1, t.world);
        TrailsAreTold(t, ExecConditional(orc, h, steps[1..], ctx, first + 1, t.world), h, steps, ctx, first);
      } else {
        StopsTold(t, h, steps, ctx, first);
      }
    }
  }

  /** The log tells the outcomes: each executed step's events carry the identifiers its call returned or
      raised, each skipped step is one whose condition does not hold, and a failing run ends with the
      classification of its failing step. */
  lemma LogTellsOutcomes(orc: Oracle, rb: ConditionalRunbook, ctx: WhenContext, w: World)
    ensures var r := RunWithContextSpec(orc, rb, ctx, w).result;
            var h := Header(rb.runbookId, |rb.steps|);
            && r.runbookId == rb.runbookId
            && ExecutedOnly(StepEvents(r)) == ToldAll(h, r.stepOutcomes)
            && SkipsAreTold(StepEvents(r), h, rb.steps, ctx, 0)
            && |r.events| >= 2
            && r.events[|r.events| - 1] == ClosingEvent(h, r)
  {
    hide ExecConditional, ExecutedOnly, ToldAll, SkipsAreTold;
    var h := Header(rb.runbookId, |rb.steps|);
    StepsAreTold(orc, h, rb.steps, ctx, 0, w);
    ConditionalRunFields(orc, rb, ctx, w);
  }

  function ClosingEvent(h: Header, r: RunbookResult): LifecycleEvent {
    if !r.terminatedEarly || r.stepOutcomes == [] then LifecycleEvent(h, RunbookCompleted)
    else
      var last := r.stepOutcomes[|r.stepOutcomes| - 1];
      LifecycleEvent(h,
        match last.failure
        case Some(f) => RunbookTerminated(last.stepIndex, Some(f.kind), Some(f.code))
        case None => RunbookTerminated(last.stepIndex, None, None))
  }

  // ---- Conditions -------------------------------------------------------------------------------

  /** A condition compares the field it names with its value: eq holds where they are equal, neq elsewhere. */
  lemma ConditionMeaning(value: string, ctx: WhenContext)
    ensures EvaluateWhen(WhenCondition("session_mode", value, "eq"), ctx) <==> ctx.sessionMode == value
    ensures EvaluateWhen(WhenCondition("session_mode", value, "neq"), ctx) <==> ctx.sessionMode != value
    ensures EvaluateWhen(WhenCondition("persona_mode", value, "eq"), ctx) <==> ctx.personaMode == value
    ensures EvaluateWhen(WhenCondition("persona_mode", value, "neq"), ctx) <==> ctx.personaMode != value
  {
  }
}
