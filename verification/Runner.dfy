/** The runbook runner and its conditional variant (io_iii/core/runbook_runner.py). */
module Runner {
  import opened Values
  import opened SessionStates
  import opened Runbooks
  import opened Oracles

  // ---- Records -------------------------------------------------------------------

  /** The fields every lifecycle event repeats. */
  datatype Header = Header(runbookId: Value, stepsTotal: nat)

  datatype What =
    | RunbookStarted
    | StepStarted(index: nat, taskSpecId: Value)
    | StepCompleted(index: nat, taskSpecId: Value, requestId: string)
    | StepSkipped(index: nat, taskSpecId: Value)
    | StepFailed(index: nat, taskSpecId: Value, requestId': Option<string>, kind: Option<string>, code: Option<string>)
    | RunbookCompleted
    | RunbookTerminated(index: nat, kind: Option<string>, code: Option<string>)

  datatype LifecycleEvent = LifecycleEvent(header: Header, what: What)

  datatype StepOutcome = StepOutcome(
    stepIndex: nat,
    taskSpecId: Value,
    state: Option<SessionState>,
    result: Option<ExecutionResult>,
    success: bool,
    failure: Option<RuntimeFailure>)

  datatype RunbookResult = RunbookResult(
    runbookId: Value,
    stepOutcomes: seq<StepOutcome>,
    stepsCompleted: nat,
    stepsSkipped: nat,
    failedStepIndex: Option<nat>,
    terminatedEarly: bool,
    events: seq<LifecycleEvent>)

  function KindOf(f: Option<RuntimeFailure>): Option<string> {
    if f.Some? then Some(f.value.kind) else None
  }

  function CodeOf(f: Option<RuntimeFailure>): Option<string> {
    if f.Some? then Some(f.value.code) else None
  }

  function RequestOf(f: Option<RuntimeFailure>): Option<string> {
    if f.Some? then Some(f.value.requestId) else None
  }

  // ---- Executing labelled work -----------------------------------------------------

  /** A step together with the index it is reported under. */
  datatype Labelled = Labelled(index: nat, spec: TaskSpec)

  /** What executing some steps leaves behind. */
  datatype Trail = Trail(
    world: World,
    calls: seq<TaskSpec>,
    outcomes: seq<StepOutcome>,
    events: seq<LifecycleEvent>,
    skipped: nat,
    failed: Option<StepOutcome>)
  {
    function Then(next: Trail): Trail {
      Trail(next.world, calls + next.calls, outcomes + next.outcomes, events + next.events,
            skipped + next.skipped, next.failed)
    }
  }

  function Idle(w: World): Trail {
    Trail(w, [], [], [], 0, None)
  }

  /** One step: exactly one oracle call. */
  function ExecStep(orc: Oracle, h: Header, item: Labelled, w: World): Trail {
    var id := item.spec.taskSpecId;
    var started := LifecycleEvent(h, StepStarted(item.index, id));
    match orc(w, item.spec)
    case Returned(w', st, r) =>
      Trail(w', [item.spec], [StepOutcome(item.index, id, Some(st), Some(r), true, None)],
            [started, LifecycleEvent(h, StepCompleted(item.index, id, st.requestId))], 0, None)
    case Raised(w', f) =>
      var outcome := StepOutcome(item.index, id, None, None, false, f);
      Trail(w', [item.spec], [outcome],
            [started, LifecycleEvent(h, StepFailed(item.index, id, RequestOf(f), KindOf(f), CodeOf(f)))],
            0, Some(outcome))
  }

  /** Execute in order up to the first failure. */
  function Exec(orc: Oracle, h: Header, work: seq<Labelled>, w: World): Trail {
    if work == [] then Idle(w)
    else
      var t := ExecStep(orc, h, work[0], w);
      if t.failed.Some? then t else t.Then(Exec(orc, h, work[1..], t.world))
  }

  function Numbered(steps: seq<TaskSpec>, first: nat): seq<Labelled> {
    seq(|steps|, i requires 0 <= i < |steps| => Labelled(first + i, steps[i]))
  }

  // ---- Conditions --------------------------------------------------------------------

  datatype WhenContext = WhenContext(sessionMode: string, personaMode: string)

  /** `evaluate_when`; the condition's key is one of the two fields of the context. */
  predicate EvaluateWhen(c: WhenCondition, ctx: WhenContext) {
    var actual := if c.key == "session_mode" then ctx.sessionMode else ctx.personaMode;
    if c.op == "eq" then actual == c.value else actual != c.value
  }

  predicate Runs(step: RunbookStep, ctx: WhenContext) {
    step.when.None? || EvaluateWhen(step.when.value, ctx)
  }

  /** A step whose condition fails leaves only a mark in the log. */
  function Effect(orc: Oracle, h: Header, step: RunbookStep, ctx: WhenContext, index: nat, w: World): Trail {
    if Runs(step, ctx) then ExecStep(orc, h, Labelled(index, step.taskSpec), w)
    else Trail(w, [], [], [LifecycleEvent(h, StepSkipped(index, step.taskSpec.taskSpecId))], 1, None)
  }

  function ExecConditional(orc: Oracle, h: Header, steps: seq<RunbookStep>, ctx: WhenContext, first: nat,
                           w: World): Trail {
    if steps == [] then Idle(w)
    else
      var t := Effect(orc, h, steps[0], ctx, first, w);
      if t.failed.Some? then t else t.Then(ExecConditional(orc, h, steps[1..], ctx, first + 1, t.world))
  }

  /** The steps whose condition holds, each under its index in the whole list. */
  function Kept(steps: seq<RunbookStep>, ctx: WhenContext, first: nat): seq<Labelled> {
    if steps == [] then []
    else (if Runs(steps[0], ctx) then [Labelled(first, steps[0].taskSpec)] else []) + Kept(steps[1..], ctx, first + 1)
  }

  // ---- What the two runners return -----------------------------------------------------

  /** A runner's result, with the world it leaves and the oracle calls it made. */
  datatype Ran = Ran(result: RunbookResult, world: World, calls: seq<TaskSpec>)

  /** The events around the steps and the counts. */
  function Conclude(h: Header, t: Trail, completed: nat): Ran {
    var begun := [LifecycleEvent(h, RunbookStarted)] + t.events;
    match t.failed
    case None =>
      Ran(RunbookResult(h.runbookId, t.outcomes, completed, t.skipped, None, false,
                        begun + [LifecycleEvent(h, RunbookCompleted)]), t.world, t.calls)
    case Some(o) =>
      var terminated := RunbookTerminated(o.stepIndex, KindOf(o.failure), CodeOf(o.failure));
      Ran(RunbookResult(h.runbookId, t.outcomes, completed, t.skipped, Some(o.stepIndex), true,
                        begun + [LifecycleEvent(h, terminated)]), t.world, t.calls)
  }

  function RunSpec(orc: Oracle, rb: Runbook, w: World): Ran {
    var h := Header(rb.runbookId, |rb.steps|);
    var t := Exec(orc, h, Numbered(rb.steps, 0), w);
    Conclude(h, t, if t.failed.Some? then t.failed.value.stepIndex else |rb.steps|)
  }

  function RunWithContextSpec(orc: Oracle, rb: ConditionalRunbook, ctx: WhenContext, w: World): Ran {
    var h := Header(rb.runbookId, |rb.steps|);
    var t := ExecConditional(orc, h, rb.steps, ctx, 0, w);
    ExecConditionalCounts(orc, h, rb.steps, ctx, 0, w);
    Conclude(h, t, if t.failed.Some? then |t.outcomes| - 1 else |t.outcomes|)
  }

  // ---- The loops -------------------------------------------------------------------------

  lemma ThenAssociates(a: Trail, b: Trail, c: Trail)
    ensures a.Then(b).Then(c) == a.Then(b.Then(c))
  {
  }

  lemma IdleIsNeutral(t: Trail)
    ensures Idle(t.world).Then(t) == t && forall w :: Idle(w).Then(t) == t
  {
  }

  /** The part of both loops that runs a step: announce it, call the orchestrator once, record what came back. */
  method RunStep(orc: Oracle, h: Header, i: nat, spec: TaskSpec, w0: World)
    returns (w: World, outcome: StepOutcome, events: seq<LifecycleEvent>)
    ensures var t := ExecStep(orc, h, Labelled(i, spec), w0);
            t == Trail(w, [spec], [outcome], events, 0, if outcome.success then None else Some(outcome))
  {
    events := [LifecycleEvent(h, StepStarted(i, spec.taskSpecId))];
    var reply := orc(w0, spec);
    w := reply.world;
    match reply {
      case Returned(_, st, r) =>
        outcome := StepOutcome(i, spec.taskSpecId, Some(st), Some(r), true, None);
        events := events + [LifecycleEvent(h, StepCompleted(i, spec.taskSpecId, st.requestId))];
      case Raised(_, f) =>
        outcome := StepOutcome(i, spec.taskSpecId, None, None, false, f);
        events := events + [LifecycleEvent(h, StepFailed(i, spec.taskSpecId, RequestOf(f), KindOf(f), CodeOf(f)))];
    }
  }

  /** The step loop of `run`. */
  method RunLoop(orc: Oracle, h: Header, steps: seq<TaskSpec>, w0: World) returns (t: Trail)
    ensures t == Exec(orc, h, Numbered(steps, 0), w0)
  {
    var outcomes: seq<StepOutcome>, events: seq<LifecycleEvent> := [], [];
    var w, calls := w0, [];
    ghost var work := Numbered(steps, 0);
    IdleIsNeutral(Exec(orc, h, work, w0));
    for i := 0 to |steps|
      invariant Exec(orc, h, work, w0) == Trail(w, calls, outcomes, events, 0, None).Then(Exec(orc, h, work[i..], w))
    {
      ExecAdvances(orc, h, work, i, w, Trail(w, calls, outcomes, events, 0, None));
      var outcome: StepOutcome, stepEvents: seq<LifecycleEvent>;
      w, outcome, stepEvents := RunStep(orc, h, i, steps[i], w);
      calls, outcomes, events := calls + [steps[i]], outcomes + [outcome], events + stepEvents;
      if !outcome.success {
        return Trail(w, calls, outcomes, events, 0, Some(outcome));
      }
    }
    t := Trail(w, calls, outcomes, events, 0, None);
    IdleIsNeutral(t);
  }

  /** `run`. */
  method Run(orc: Oracle, rb: Runbook, w0: World) returns (result: RunbookResult, w: World, calls: seq<TaskSpec>)
    ensures Ran(result, w, calls) == RunSpec(orc, rb, w0)
  {
    var h := Header(rb.runbookId, |rb.steps|);
    var events := [LifecycleEvent(h, RunbookStarted)];
    var t := RunLoop(orc, h, rb.steps, w0);
    events := events + t.events;
    w, calls := t.world, t.calls;
    ExecCounts(orc, h, Numbered(rb.steps, 0), w0);
    match t.failed {
      case Some(o) =>
        events := events + [LifecycleEvent(h, RunbookTerminated(o.stepIndex, KindOf(o.failure), CodeOf(o.failure)))];
        result := RunbookResult(rb.runbookId, t.outcomes, o.stepIndex, 0, Some(o.stepIndex), true, events);
      case None =>
        events := events + [LifecycleEvent(h, RunbookCompleted)];
        result := RunbookResult(rb.runbookId, t.outcomes, |rb.steps|, 0, None, false, events);
    }
  }

  lemma ExecAdvances(orc: Oracle, h: Header, work: seq<Labelled>, i: nat, w: World, done: Trail)
    requires i < |work|
    ensures var t := ExecStep(orc, h, work[i], w);
            done.Then(Exec(orc, h, work[i..], w)) ==
              if t.failed.Some? then done.Then(t) else done.Then(t).Then(Exec(orc, h, work[i + 1..], t.world))
  {
    assert work[i..][0] == work[i] && work[i..][1..] == work[i + 1..];
    var t := ExecStep(orc, h, work[i], w);
    ThenAssociates(done, t, Exec(orc, h, work[i + 1..], t.world));
  }

  /** One turn of the conditional loop: skip the step or run it. */
  method AttemptStep(orc: Oracle, h: Header, i: nat, step: RunbookStep, ctx: WhenContext, w0: World)
    returns (w: World, calls: seq<TaskSpec>, outcomes: seq<StepOutcome>, events: seq<LifecycleEvent>, skipped: nat)
    ensures var t := Effect(orc, h, step, ctx, i, w0);
            && t == Trail(w, calls, outcomes, events, skipped, t.failed)
            && t.failed == (if outcomes == [] || outcomes[0].success then None else Some(outcomes[0]))
            && |outcomes| <= 1 && (t.failed.Some? ==> skipped == 0 && outcomes[0].stepIndex == i)
  {
    if !Runs(step, ctx) {
      return w0, [], [], [LifecycleEvent(h, StepSkipped(i, step.taskSpec.taskSpecId))], 1;
    }
    var outcome: StepOutcome;
    w, outcome, events := RunStep(orc, h, i, step.taskSpec, w0);
    calls, outcomes, skipped := [step.taskSpec], [outcome], 0;
  }

  /** The step loop of `run_with_context`. */
  method RunWithContextLoop(orc: Oracle, h: Header, steps: seq<RunbookStep>, ctx: WhenContext, w0: World)
    returns (t: Trail)
    ensures t == ExecConditional(orc, h, steps, ctx, 0, w0)
  {
    var outcomes: seq<StepOutcome>, events: seq<LifecycleEvent> := [], [];
    var w, calls, skipped: nat := w0, [], 0;
    IdleIsNeutral(ExecConditional(orc, h, steps, ctx, 0, w0));
    for i := 0 to |steps|
      invariant ExecConditional(orc, h, steps, ctx, 0, w0)
             == Trail(w, calls, outcomes, events, skipped, None).Then(ExecConditional(orc, h, steps[i..], ctx, i, w))
    {
      ConditionalAdvances(orc, h, steps, ctx, i, w, Trail(w, calls, outcomes, events, skipped, None));
      var madeCalls: seq<TaskSpec>, made: seq<StepOutcome>, stepEvents: seq<LifecycleEvent>, missed: nat;
      w, madeCalls, made, stepEvents, missed := AttemptStep(orc, h, i, steps[i], ctx, w);
      calls, outcomes, events, skipped := calls + madeCalls, outcomes + made, events + stepEvents, skipped + missed;
      if made != [] && !made[0].success {
        return Trail(w, calls, outcomes, events, skipped, Some(made[0]));
      }
    }
    t := Trail(w, calls, outcomes, events, skipped, None);
    IdleIsNeutral(t);
  }

  /** `run_with_context`. */
  method RunWithContext(orc: Oracle, rb: ConditionalRunbook, ctx: WhenContext, w0: World)
    returns (result: RunbookResult, w: World, calls: seq<TaskSpec>)
    ensures Ran(result, w, calls) == RunWithContextSpec(orc, rb, ctx, w0)
  {
    var h := Header(rb.runbookId, |rb.steps|);
    var events := [LifecycleEvent(h, RunbookStarted)];
    var t := RunWithContextLoop(orc, h, rb.steps, ctx, w0);
    events := events + t.events;
    w, calls := t.world, t.calls;
    ExecConditionalCounts(orc, h, rb.steps, ctx, 0, w0);
    match t.failed {
      case Some(o) =>
        events := events + [LifecycleEvent(h, RunbookTerminated(o.stepIndex, KindOf(o.failure), CodeOf(o.failure)))];
        result := RunbookResult(rb.runbookId, t.outcomes, |t.outcomes| - 1, t.skipped, Some(o.stepIndex), true, events);
      case None =>
        events := events + [LifecycleEvent(h, RunbookCompleted)];
        result := RunbookResult(rb.runbookId, t.outcomes, |t.outcomes|, t.skipped, None, false, events);
    }
  }

  lemma ConditionalAdvances(orc: Oracle, h: Header, steps: seq<RunbookStep>, ctx: WhenContext, i: nat, w: World,
                            done: Trail)
    requires i < |steps|
    ensures var t := Effect(orc, h, steps[i], ctx, i, w);
            done.Then(ExecConditional(orc, h, steps[i..], ctx, i, w)) ==
              if t.failed.Some? then done.Then(t)
              else done.Then(t).Then(ExecConditional(orc, h, steps[i + 1..], ctx, i + 1, t.world))
  {
    assert steps[i..][0] == steps[i] && steps[i..][1..] == steps[i + 1..];
    var t := Effect(orc, h, steps[i], ctx, i, w);
    ThenAssociates(done, t, ExecConditional(orc, h, steps[i + 1..], ctx, i + 1, t.world));
  }

  lemma {:induction false} ExecConditionalCounts(orc: Oracle, h: Header, steps: seq<RunbookStep>, ctx: WhenContext,
                                                 first: nat, w: World)
    ensures var t := ExecConditional(orc, h, steps, ctx, first, w);
            && |t.calls| == |t.outcomes|
            && (t.failed.Some? ==> |t.outcomes| >= 1)
            && |t.outcomes| + t.skipped == if t.failed.Some? then t.failed.value.stepIndex + 1 - first else |steps|
  {
    if steps != [] {
      var t := Effect(orc, h, steps[0], ctx, first, w);
      if t.failed.None? {
        ExecConditionalCounts(orc, h, steps[1..], ctx, first + 1, t.world);
      }
    }
  }

  /** Counts of a run without conditions, whose outcomes line up with the work. */
  lemma {:induction false} ExecCounts(orc: Oracle, h: Header, work: seq<Labelled>, w: World)
    ensures var t := Exec(orc, h, work, w);
            && t.skipped == 0
            && |t.calls| == |t.outcomes| <= |work|
            && (t.failed.None? ==> |t.outcomes| == |work|)
            && (t.failed.Some? ==> |t.outcomes| > 0 && t.outcomes[|t.outcomes| - 1] == t.failed.value)
            && forall k | 0 <= k < |t.outcomes| ::
                 && t.outcomes[k].stepIndex == work[k].index
                 && t.outcomes[k].taskSpecId == work[k].spec.taskSpecId
                 && t.calls[k] == work[k].spec
                 && t.outcomes[k].success == (t.failed.None? || k < |t.outcomes| - 1)
  {
    if work != [] {
      var t := ExecStep(orc, h, work[0], w);
      if t.failed.None? {
        ExecCounts(orc, h, work[1..], t.world);
        assert forall k | 0 < k < |work| :: work[k] == work[1..][k - 1];
      }
    }
  }
}
