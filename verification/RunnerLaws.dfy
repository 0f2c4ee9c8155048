/** Laws of the two runbook runners: composition of runs, the conditional runner as a
    refinement of the plain one, step accounting and the language of lifecycle events. */
module RunnerLaws {
  import opened Values
  import opened Runbooks
  import opened Oracles
  import opened Runner

  // ---- Reporting the same run under other indices -----------------------------------

  function RetargetOutcome(o: StepOutcome, f: nat -> nat): StepOutcome {
    o.(stepIndex := f(o.stepIndex))
  }

  function RetargetWhat(what: What, f: nat -> nat): What {
    match what
    case RunbookStarted => what
    case RunbookCompleted => what
    case StepStarted(i, id) => StepStarted(f(i), id)
    case StepCompleted(i, id, r) => StepCompleted(f(i), id, r)
    case StepSkipped(i, id) => StepSkipped(f(i), id)
    case StepFailed(i, id, r, k, c) => StepFailed(f(i), id, r, k, c)
    case RunbookTerminated(i, k, c) => RunbookTerminated(f(i), k, c)
  }

  function RetargetOutcomes(os: seq<StepOutcome>, f: nat -> nat): seq<StepOutcome> {
    seq(|os|, i requires 0 <= i < |os| => RetargetOutcome(os[i], f))
  }

  function RetargetEvents(es: seq<LifecycleEvent>, h: Header, f: nat -> nat): seq<LifecycleEvent> {
    seq(|es|, i requires 0 <= i < |es| => LifecycleEvent(h, RetargetWhat(es[i].what, f)))
  }

  function Retarget(t: Trail, h: Header, f: nat -> nat): Trail {
    Trail(t.world, t.calls, RetargetOutcomes(t.outcomes, f), RetargetEvents(t.events, h, f), t.skipped,
          if t.failed.Some? then Some(RetargetOutcome(t.failed.value, f)) else None)
  }

  function Relabel(work: seq<Labelled>, f: nat -> nat): seq<Labelled> {
    seq(|work|, i requires 0 <= i < |work| => Labelled(f(work[i].index), work[i].spec))
  }

  lemma RetargetThen(a: Trail, b: Trail, h: Header, f: nat -> nat)
    ensures Retarget(a.Then(b), h, f) == Retarget(a, h, f).Then(Retarget(b, h, f))
  {
  }

  /** Indices and header are only reported: execution itself does not depend on them. */
  lemma {:induction false} ExecRelabel(orc: Oracle, h: Header, h': Header, work: seq<Labelled>, f: nat -> nat, w: World)
    ensures Exec(orc, h', Relabel(work, f), w) == Retarget(Exec(orc, h, work, w), h', f)
  {
    if work != [] {
      var t := ExecStep(orc, h, work[0], w);
      assert ExecStep(orc, h', Relabel(work, f)[0], w) == Retarget(t, h', f);
      if t.failed.None? {
        assert Relabel(work, f)[1..] == Relabel(work[1..], f);
        ExecRelabel(orc, h, h', work[1..], f, t.world);
        RetargetThen(t, Exec(orc, h, work[1..], t.world), h', f);
      }
    }
  }

  lemma {:induction false} ExecAppend(orc: Oracle, h: Header, a: seq<Labelled>, b: seq<Labelled>, w: World)
    ensures var t := Exec(orc, h, a, w);
            Exec(orc, h, a + b, w) == if t.failed.Some? then t else t.Then(Exec(orc, h, b, t.world))
  {
    if a == [] {
      assert a + b == b;
      IdleIsNeutral(Exec(orc, h, b, w));
    } else {
      assert (a + b)[1..] == a[1..] + b;
      var t := ExecStep(orc, h, a[0], w);
      if t.failed.None? {
        ExecAppend(orc, h, a[1..], b, t.world);
        var rest := Exec(orc, h, a[1..], t.world);
        ThenAssociates(t, rest, Exec(orc, h, b, rest.world));
      }
    }
  }

  // ---- Composition --------------------------------------------------------------------

  /** The events of the steps, without the opening and the closing one. */
  function StepEvents(r: RunbookResult): seq<LifecycleEvent> {
    if |r.events| < 2 then [] else r.events[1..|r.events| - 1]
  }

  function Moved(index: Option<nat>, past: nat): Option<nat> {
    if index.Some? then Some(index.value + past) else None
  }

  lemma ConcludeStepEvents(h: Header, t: Trail, completed: nat)
    ensures StepEvents(Conclude(h, t, completed).result) == t.events
  {
  }

  lemma ExecComposes(orc: Oracle, id: Value, a: seq<TaskSpec>, b: seq<TaskSpec>, w: World)
    ensures var h, ha, hb := Header(id, |a + b|), Header(id, |a|), Header(id, |b|);
            var front := Exec(orc, ha, Numbered(a, 0), w);
            var back := Exec(orc, hb, Numbered(b, 0), front.world);
            Exec(orc, h, Numbered(a + b, 0), w) ==
              if front.failed.Some? then Retarget(front, h, (j: nat) => j)
              else Retarget(front, h, (j: nat) => j).Then(Retarget(back, h, (j: nat) => |a| + j))
  {
    var h, ha, hb := Header(id, |a + b|), Header(id, |a|), Header(id, |b|);
    var same, past := (j: nat) => j, (j: nat) => |a| + j;
    var wa, wb := Numbered(a, 0), Numbered(b, 0);
    assert Numbered(a + b, 0) == Relabel(wa, same) + Relabel(wb, past);
    ExecAppend(orc, h, Relabel(wa, same), Relabel(wb, past), w);
    ExecRelabel(orc, ha, h, wa, same, w);
    ExecRelabel(orc, hb, h, wb, past, Exec(orc, ha, wa, w).world);
  }

  lemma RunFields(orc: Oracle, rb: Runbook, w: World)
    ensures var t := Exec(orc, Header(rb.runbookId, |rb.steps|), Numbered(rb.steps, 0), w);
            var ran := RunSpec(orc, rb, w);
            && StepEvents(ran.result) == t.events
            && ran.result.stepOutcomes == t.outcomes && ran.world == t.world && ran.calls == t.calls
            && ran.result.terminatedEarly == t.failed.Some?
            && ran.result.failedStepIndex == (if t.failed.Some? then Some(t.failed.value.stepIndex) else None)
            && ran.result.stepsCompleted == (if t.failed.Some? then t.failed.value.stepIndex else |rb.steps|)
            && ran.result.stepsSkipped == 0 && ran.result.runbookId == rb.runbookId
  {
    ExecCounts(orc, Header(rb.runbookId, |rb.steps|), Numbered(rb.steps, 0), w);
  }

  /** If a step of a fails, running a ++ b is running a alone. */
  lemma RunStopsInFront(orc: Oracle, id: Value, a: seq<TaskSpec>, b: seq<TaskSpec>, w: World)
    requires RunSpec(orc, Runbook(id, a), w).result.terminatedEarly
    ensures var whole := RunSpec(orc, Runbook(id, a + b), w);
            var front := RunSpec(orc, Runbook(id, a), w);
            && whole.world == front.world && whole.calls == front.calls
            && whole.result == front.result.(events := whole.result.events)
            && StepEvents(whole.result) == RetargetEvents(StepEvents(front.result), Header(id, |a + b|), (j: nat) => j)
  {
    ExecComposes(orc, id, a, b, w);
    RunFields(orc, Runbook(id, a), w);
    RunFields(orc, Runbook(id, a + b), w);
    var front := Exec(orc, Header(id, |a|), Numbered(a, 0), w);
    assert RetargetOutcomes(front.outcomes, (j: nat) => j) == front.outcomes;
  }

  /** Otherwise it is running a and then b from the world a left, with b's indices moved past a. */
  lemma RunComposes(orc: Oracle, id: Value, a: seq<TaskSpec>, b: seq<TaskSpec>, w: World)
    requires !RunSpec(orc, Runbook(id, a), w).result.terminatedEarly
    ensures var whole := RunSpec(orc, Runbook(id, a + b), w);
            var front := RunSpec(orc, Runbook(id, a), w);
            var back := RunSpec(orc, Runbook(id, b), front.world);
            var h, past := Header(id, |a + b|), (j: nat) => |a| + j;
            && whole.world == back.world && whole.calls == front.calls + back.calls
            && whole.result.stepOutcomes == front.result.stepOutcomes + RetargetOutcomes(back.result.stepOutcomes, past)
            && whole.result.stepsCompleted == |a| + back.result.stepsCompleted
            && whole.result.failedStepIndex == Moved(back.result.failedStepIndex, |a|)
            && whole.result.terminatedEarly == back.result.terminatedEarly
            && StepEvents(whole.result) ==
                 RetargetEvents(StepEvents(front.result), h, (j: nat) => j)
                 + RetargetEvents(StepEvents(back.result), h, past)
  {
    ExecComposes(orc, id, a, b, w);
    RunFields(orc, Runbook(id, a), w);
    RunFields(orc, Runbook(id, b), RunSpec(orc, Runbook(id, a), w).world);
    RunFields(orc, Runbook(id, a + b), w);
    var front := Exec(orc, Header(id, |a|), Numbered(a, 0), w);
    assert RetargetOutcomes(front.outcomes, (j: nat) => j) == front.outcomes;
  }

  // ---- The conditional runner refines the plain one -----------------------------------

  /** `Kept` lists steps whose condition holds, in order, under their own indices. */
  lemma {:induction false} KeptSound(steps: seq<RunbookStep>, ctx: WhenContext, first: nat, k: nat)
    requires k < |Kept(steps, ctx, first)|
    ensures var kept := Kept(steps, ctx, first);
            && first <= kept[k].index < first + |steps|
            && Runs(steps[kept[k].index - first], ctx)
            && kept[k].spec == steps[kept[k].index - first].taskSpec
            && (k > 0 ==> kept[k - 1].index < kept[k].index)
  {
    var d := if Runs(steps[0], ctx) then 1 else 0;
    if k >= d {
      KeptSound(steps[1..], ctx, first + 1, k - d);
    }
  }

  /** And it misses none of them. */
  lemma {:induction false} KeptComplete(steps: seq<RunbookStep>, ctx: WhenContext, first: nat, i: nat) returns (k: nat)
    requires i < |steps| && Runs(steps[i], ctx)
    ensures k < |Kept(steps, ctx, first)| && Kept(steps, ctx, first)[k].index == first + i
  {
    if i == 0 {
      k := 0;
    } else {
      k := KeptComplete(steps[1..], ctx, first + 1, i - 1);
      k := if Runs(steps[0], ctx) then k + 1 else k;
    }
  }

  function ExecutedOnly(es: seq<LifecycleEvent>): seq<LifecycleEvent> {
    if es == [] then []
    else (if es[0].what.StepSkipped? then [] else [es[0]]) + ExecutedOnly(es[1..])
  }

  lemma {:induction false} ExecutedOnlyConcat(a: seq<LifecycleEvent>, b: seq<LifecycleEvent>)
    ensures ExecutedOnly(a + b) == ExecutedOnly(a) + ExecutedOnly(b)
  {
    if a == [] {
      assert a + b == b;
    } else {
      assert (a + b)[1..] == a[1..] + b;
      ExecutedOnlyConcat(a[1..], b);
    }
  }

  lemma EffectExecutedOnly(orc: Oracle, h: Header, step: RunbookStep, ctx: WhenContext, index: nat, w: World)
    ensures var es := Effect(orc, h, step, ctx, index, w).events;
            ExecutedOnly(es) == if Runs(step, ctx) then es else []
  {
    var es := Effect(orc, h, step, ctx, index, w).events;
    assert forall e: LifecycleEvent :: [e][1..] == [];
    if Runs(step, ctx) {
      assert es == [es[0]] + [es[1]];
      ExecutedOnlyConcat([es[0]], [es[1]]);
    }
  }

  lemma {:induction false} ConditionalIsExecOnKept(orc: Oracle, h: Header, steps: seq<RunbookStep>, ctx: WhenContext,
                                                   first: nat, w: World)
    ensures var c := ExecConditional(orc, h, steps, ctx, first, w);
            var p := Exec(orc, h, Kept(steps, ctx, first), w);
            && c.(events := p.events, skipped := p.skipped) == p
            && ExecutedOnly(c.events) == p.events
  {
    if steps != [] {
      var t := Effect(orc, h, steps[0], ctx, first, w);
      var kept, rest := Kept(steps, ctx, first), Kept(steps[1..], ctx, first + 1);
      EffectExecutedOnly(orc, h, steps[0], ctx, first, w);
      if t.failed.None? {
        ConditionalIsExecOnKept(orc, h, steps[1..], ctx, first + 1, t.world);
        ExecutedOnlyConcat(t.events, ExecConditional(orc, h, steps[1..], ctx, first + 1, t.world).events);
      }
      if Runs(steps[0], ctx) {
        assert kept[0] == Labelled(first, steps[0].taskSpec) && kept[1..] == rest;
      } else {
        assert kept == rest;
      }
    }
  }

  function Specs(work: seq<Labelled>): seq<TaskSpec> {
    seq(|work|, i requires 0 <= i < |work| => work[i].spec)
  }

  /** A conditional run is the plain run of the sublist of steps whose condition holds:
      same oracle calls, same final world, same outcomes and step events with the indices
      mapped back to the whole list. */
  lemma ConditionalRefinesRun(orc: Oracle, rb: ConditionalRunbook, ctx: WhenContext, w: World)
    ensures var kept := Kept(rb.steps, ctx, 0);
            var c := RunWithContextSpec(orc, rb, ctx, w);
            var r := RunSpec(orc, Runbook(rb.runbookId, Specs(kept)), w);
            var back := (j: nat) => if j < |kept| then kept[j].index else 0;
            && c.world == r.world && c.calls == r.calls
            && c.result.stepOutcomes == RetargetOutcomes(r.result.stepOutcomes, back)
            && c.result.stepsCompleted == r.result.stepsCompleted
            && c.result.terminatedEarly == r.result.terminatedEarly
            && c.result.failedStepIndex ==
                 (if r.result.failedStepIndex.Some? then Some(back(r.result.failedStepIndex.value)) else None)
            && ExecutedOnly(StepEvents(c.result)) ==
                 RetargetEvents(StepEvents(r.result), Header(rb.runbookId, |rb.steps|), back)
  {
    var kept := Kept(rb.steps, ctx, 0);
    var h, hp := Header(rb.runbookId, |rb.steps|), Header(rb.runbookId, |kept|);
    var work := Numbered(Specs(kept), 0);
    var back := (j: nat) => if j < |kept| then kept[j].index else 0;
    assert Relabel(work, back) == kept;
    var c := ExecConditional(orc, h, rb.steps, ctx, 0, w);
    var p := Exec(orc, hp, work, w);
    ConditionalIsExecOnKept(orc, h, rb.steps, ctx, 0, w);
    ExecRelabel(orc, hp, h, work, back, w);
    ExecCounts(orc, hp, work, w);
    ExecConditionalCounts(orc, h, rb.steps, ctx, 0, w);
    ConcludeStepEvents(h, c, if c.failed.Some? then |c.outcomes| - 1 else |c.outcomes|);
    ConcludeStepEvents(hp, p, if p.failed.Some? then p.failed.value.stepIndex else |work|);
  }

  lemma {:induction false} AllKept(steps: seq<RunbookStep>, ctx: WhenContext, first: nat, specs: seq<TaskSpec>,
                                   orc: Oracle, h: Header, w: World)
    requires |specs| == |steps|
    requires forall i | 0 <= i < |steps| :: steps[i].when.None? && specs[i] == steps[i].taskSpec
    ensures ExecConditional(orc, h, steps, ctx, first, w) == Exec(orc, h, Numbered(specs, first), w)
  {
    if steps != [] {
      var t := ExecStep(orc, h, Labelled(first, specs[0]), w);
      assert Numbered(specs, first)[1..] == Numbered(specs[1..], first + 1);
      AllKept(steps[1..], ctx, first + 1, specs[1..], orc, h, t.world);
    }
  }

  /** Without conditions the two runners return the same result, events included. */
  lemma UnconditionalIsRun(orc: Oracle, rb: ConditionalRunbook, ctx: WhenContext, plain: Runbook, w: World)
    requires plain.runbookId == rb.runbookId && |plain.steps| == |rb.steps|
    requires forall i | 0 <= i < |rb.steps| :: rb.steps[i].when.None? && plain.steps[i] == rb.steps[i].taskSpec
    ensures RunWithContextSpec(orc, rb, ctx, w) == RunSpec(orc, plain, w)
  {
    var h := Header(rb.runbookId, |rb.steps|);
    AllKept(rb.steps, ctx, 0, plain.steps, orc, h, w);
    ExecCounts(orc, h, Numbered(plain.steps, 0), w);
    ExecConditionalCounts(orc, h, rb.steps, ctx, 0, w);
  }

  // ---- Composition of conditional runs -------------------------------------------------------

  lemma EffectRelabel(orc: Oracle, h: Header, h': Header, step: RunbookStep, ctx: WhenContext, first: nat, past: nat,
                      w: World)
    ensures Effect(orc, h', step, ctx, past + first, w) ==
            Retarget(Effect(orc, h, step, ctx, first, w), h', (j: nat) => past + j)
  {
  }

  /** A conditional run does not depend on the indices it reports either. */
  lemma {:induction false} ConditionalRelabel(orc: Oracle, h: Header, h': Header, steps: seq<RunbookStep>,
                                              ctx: WhenContext, first: nat, past: nat, w: World)
    ensures ExecConditional(orc, h', steps, ctx, past + first, w) ==
            Retarget(ExecConditional(orc, h, steps, ctx, first, w), h', (j: nat) => past + j)
    decreases |steps|
  {
    if steps != [] {
      hide Effect;
      var f := (j: nat) => past + j;
      var t := Effect(orc, h, steps[0], ctx, first, w);
      EffectRelabel(orc, h, h', steps[0], ctx, first, past, w);
      if t.failed.None? {
        ConditionalRelabel(orc, h, h', steps[1..], ctx, first + 1, past, t.world);
        RetargetThen(t, ExecConditional(orc, h, steps[1..], ctx, first + 1, t.world), h', f);
      }
    }
  }

  lemma {:induction false} ConditionalAppend(orc: Oracle, h: Header, a: seq<RunbookStep>, b: seq<RunbookStep>,
                                             ctx: WhenContext, first: nat, w: World)
    ensures var t := ExecConditional(orc, h, a, ctx, first, w);
            ExecConditional(orc, h, a + b, ctx, first, w) ==
              if t.failed.Some? then t else t.Then(ExecConditional(orc, h, b, ctx, first + |a|, t.world))
    decreases |a|
  {
    if a == [] {
      assert a + b == b;
      IdleIsNeutral(ExecConditional(orc, h, b, ctx, first, w));
    } else {
      hide Effect;
      assert (a + b)[1..] == a[1..] + b && (a + b)[0] == a[0];
      var t := Effect(orc, h, a[0], ctx, first, w);
      if t.failed.None? {
        ConditionalAppend(orc, h, a[1..], b, ctx, first + 1, t.world);
        var rest := ExecConditional(orc, h, a[1..], ctx, first + 1, t.world);
        ThenAssociates(t, rest, ExecConditional(orc, h, b, ctx, first + |a|, rest.world));
      }
    }
  }

  /** The trail of a conditional run, by its own header and from index 0. */
  function ConditionalTrail(orc: Oracle, id: Value, steps: seq<RunbookStep>, ctx: WhenContext, w: World): Trail {
    ExecConditional(orc, Header(id, |steps|), steps, ctx, 0, w)
  }

  lemma RetargetSame(t: Trail, h: Header)
    ensures Retarget(t, h, (j: nat) => 0 + j) == Retarget(t, h, (j: nat) => j)
    ensures var r := Retarget(t, h, (j: nat) => j); r.world == t.world && (r.failed.Some? <==> t.failed.Some?)
  {
    assert RetargetOutcomes(t.outcomes, (j: nat) => 0 + j) == RetargetOutcomes(t.outcomes, (j: nat) => j);
    assert RetargetEvents(t.events, h, (j: nat) => 0 + j) == RetargetEvents(t.events, h, (j: nat) => j);
  }

  lemma ConditionalComposes(orc: Oracle, id: Value, a: seq<RunbookStep>, b: seq<RunbookStep>, ctx: WhenContext,
                            w: World)
    ensures var h := Header(id, |a + b|);
            var front := ConditionalTrail(orc, id, a, ctx, w);
            var back := ConditionalTrail(orc, id, b, ctx, front.world);
            ConditionalTrail(orc, id, a + b, ctx, w) ==
              if front.failed.Some? then Retarget(front, h, (j: nat) => j)
              else Retarget(front, h, (j: nat) => j).Then(Retarget(back, h, (j: nat) => |a| + j))
  {
    hide ExecConditional, Retarget;
    var h := Header(id, |a + b|);
    var front := ConditionalTrail(orc, id, a, ctx, w);
    ConditionalAppend(orc, h, a, b, ctx, 0, w);
    ConditionalRelabel(orc, Header(id, |a|), h, a, ctx, 0, 0, w);
    ConditionalRelabel(orc, Header(id, |b|), h, b, ctx, 0, |a|, front.world);
    RetargetSame(front, h);
  }

  lemma ConditionalRunFields(orc: Oracle, rb: ConditionalRunbook, ctx: WhenContext, w: World)
    ensures var t := ConditionalTrail(orc, rb.runbookId, rb.steps, ctx, w);
            var ran := RunWithContextSpec(orc, rb, ctx, w);
            && StepEvents(ran.result) == t.events
            && ran.result.stepOutcomes == t.outcomes && ran.world == t.world && ran.calls == t.calls
            && ran.result.terminatedEarly == t.failed.Some?
            && ran.result.failedStepIndex == (if t.failed.Some? then Some(t.failed.value.stepIndex) else None)
            && (t.failed.Some? ==> t.outcomes != [])
            && ran.result.stepsCompleted == (if t.failed.Some? then |t.outcomes| - 1 else |t.outcomes|)
            && ran.result.stepsSkipped == t.skipped && ran.result.runbookId == rb.runbookId
  {
    ExecConditionalCounts(orc, Header(rb.runbookId, |rb.steps|), rb.steps, ctx, 0, w);
  }

  /** If a step of a fails, the conditional run of a ++ b is that of a alone. */
  lemma ConditionalRunStopsInFront(orc: Oracle, id: Value, a: seq<RunbookStep>, b: seq<RunbookStep>, ctx: WhenContext,
                                   w: World)
    requires RunWithContextSpec(orc, ConditionalRunbook(id, a), ctx, w).result.terminatedEarly
    ensures var whole := RunWithContextSpec(orc, ConditionalRunbook(id, a + b), ctx, w);
            var front := RunWithContextSpec(orc, ConditionalRunbook(id, a), ctx, w);
            && whole.world == front.world && whole.calls == front.calls
            && whole.result == front.result.(events := whole.result.events)
            && StepEvents(whole.result) == RetargetEvents(StepEvents(front.result), Header(id, |a + b|), (j: nat) => j)
  {
    hide RunWithContextSpec, ExecConditional;
    ConditionalComposes(orc, id, a, b, ctx, w);
    ConditionalRunFields(orc, ConditionalRunbook(id, a), ctx, w);
    ConditionalRunFields(orc, ConditionalRunbook(id, a + b), ctx, w);
    var front := ConditionalTrail(orc, id, a, ctx, w);
    assert RetargetOutcomes(front.outcomes, (j: nat) => j) == front.outcomes;
  }

  /** Otherwise it is that of a and then that of b from the world a left, with b's indices moved past a. */
  lemma ConditionalRunComposes(orc: Oracle, id: Value, a: seq<RunbookStep>, b: seq<RunbookStep>, ctx: WhenContext,
                               w: World)
    requires !RunWithContextSpec(orc, ConditionalRunbook(id, a), ctx, w).result.terminatedEarly
    ensures var whole := RunWithContextSpec(orc, ConditionalRunbook(id, a + b), ctx, w);
            var front := RunWithContextSpec(orc, ConditionalRunbook(id, a), ctx, w);
            var back := RunWithContextSpec(orc, ConditionalRunbook(id, b), ctx, front.world);
            var h, past := Header(id, |a + b|), (j: nat) => |a| + j;
            && whole.world == back.world && whole.calls == front.calls + back.calls
            && whole.result.stepOutcomes == front.result.stepOutcomes + RetargetOutcomes(back.result.stepOutcomes, past)
            && whole.result.stepsCompleted == front.result.stepsCompleted + back.result.stepsCompleted
            && whole.result.stepsSkipped == front.result.stepsSkipped + back.result.stepsSkipped
            && whole.result.failedStepIndex == Moved(back.result.failedStepIndex, |a|)
            && whole.result.terminatedEarly == back.result.terminatedEarly
            && StepEvents(whole.result) ==
                 RetargetEvents(StepEvents(front.result), h, (j: nat) => j)
                 + RetargetEvents(StepEvents(back.result), h, past)
  {
    hide RunWithContextSpec, ExecConditional;
    var front := ConditionalTrail(orc, id, a, ctx, w);
    ConditionalRunFields(orc, ConditionalRunbook(id, a), ctx, w);
    ConditionalRunFields(orc, ConditionalRunbook(id, b), ctx, front.world);
    ConditionalRunFields(orc, ConditionalRunbook(id, a + b), ctx, w);
    ConditionalComposes(orc, id, a, b, ctx, w);
    assert RetargetOutcomes(front.outcomes, (j: nat) => j) == front.outcomes;
  }

  // ---- Accounting ------------------------------------------------------------------------

  /** Every step is completed, skipped, failed or never reached. */
  lemma Accounting(orc: Oracle, rb: ConditionalRunbook, ctx: WhenContext, w: World)
    ensures var ran := RunWithContextSpec(orc, rb, ctx, w);
            var r := ran.result;
            && r.stepsCompleted + r.stepsSkipped + (if r.terminatedEarly then 1 else 0) ==
                 (if r.terminatedEarly then r.failedStepIndex.value + 1 else |rb.steps|)
            && r.terminatedEarly == r.failedStepIndex.Some?
            && |ran.calls| == |r.stepOutcomes| == r.stepsCompleted + (if r.terminatedEarly then 1 else 0)
  {
    ExecConditionalCounts(orc, Header(rb.runbookId, |rb.steps|), rb.steps, ctx, 0, w);
  }

  /** Each started step is one oracle call, made for a step whose condition holds, in ascending order;
      only the last can have failed. */
  lemma OutcomesFollowTheRunbook(orc: Oracle, rb: ConditionalRunbook, ctx: WhenContext, w: World, k: nat)
    requires k < |RunWithContextSpec(orc, rb, ctx, w).result.stepOutcomes|
    ensures var ran := RunWithContextSpec(orc, rb, ctx, w);
            var os := ran.result.stepOutcomes;
            && |ran.calls| == |os|
            && os[k].stepIndex < |rb.steps|
            && ran.calls[k] == rb.steps[os[k].stepIndex].taskSpec
            && Runs(rb.steps[os[k].stepIndex], ctx)
            && os[k].success == (k < ran.result.stepsCompleted)
            && (k > 0 ==> os[k - 1].stepIndex < os[k].stepIndex)
  {
    hide Exec, ExecConditional, Kept;
    var h := Header(rb.runbookId, |rb.steps|);
    ConditionalIsExecOnKept(orc, h, rb.steps, ctx, 0, w);
    ExecCounts(orc, h, Kept(rb.steps, ctx, 0), w);
    KeptSound(rb.steps, ctx, 0, k);
  }

  /** For the plain runner the outcome at the failed index is the failing step: the entry resume looks up. */
  lemma PlainAccounting(orc: Oracle, rb: Runbook, w: World)
    ensures var ran := RunSpec(orc, rb, w);
            var r := ran.result;
            && r.stepsSkipped == 0 && r.stepsCompleted <= |rb.steps|
            && r.terminatedEarly == r.failedStepIndex.Some?
            && |ran.calls| == |r.stepOutcomes|
            && (forall k | 0 <= k < |r.stepOutcomes| ::
                 r.stepOutcomes[k].stepIndex == k && k < |rb.steps| && ran.calls[k] == rb.steps[k]
                 && r.stepOutcomes[k].success == (k < r.stepsCompleted))
            && if r.terminatedEarly then
                 && r.failedStepIndex.value == r.stepsCompleted == |r.stepOutcomes| - 1
                 && !r.stepOutcomes[r.failedStepIndex.value].success
               else r.stepsCompleted == |r.stepOutcomes| == |rb.steps|
  {
    ExecCounts(orc, Header(rb.runbookId, |rb.steps|), Numbered(rb.steps, 0), w);
  }

  // ---- The lifecycle language ----------------------------------------------------------

  /** Where a reader of the log stands. */
  datatype Stage = Opening | Between(next: nat) | Inside(index: nat) | Broken(index: nat) | Ended(ok: bool)

  /** The events permitted at each stage of a runbook of `total` steps. */
  function Read(stage: Stage, what: What, total: nat): Option<Stage> {
    match (stage, what)
    case (Opening, RunbookStarted) => Some(Between(0))
    case (Between(n), StepStarted(i, _)) => if i == n < total then Some(Inside(i)) else None
    case (Between(n), StepSkipped(i, _)) => if i == n < total then Some(Between(n + 1)) else None
    case (Between(n), RunbookCompleted) => if n == total then Some(Ended(true)) else None
    case (Inside(n), StepCompleted(i, _, _)) => if i == n then Some(Between(n + 1)) else None
    case (Inside(n), StepFailed(i, _, _, _, _)) => if i == n then Some(Broken(n)) else None
    case (Broken(n), RunbookTerminated(i, _, _)) => if i == n then Some(Ended(false)) else None
    case _ => None
  }

  function ReadAll(stage: Stage, es: seq<LifecycleEvent>, h: Header): Option<Stage>
    decreases |es|
  {
    if es == [] then Some(stage)
    else if es[0].header != h then None
    else match Read(stage, es[0].what, h.stepsTotal)
      case None => None
      case Some(next) => ReadAll(next, es[1..], h)
  }

  lemma {:induction false} ReadAllConcat(stage: Stage, a: seq<LifecycleEvent>, b: seq<LifecycleEvent>, h: Header)
    requires ReadAll(stage, a, h).Some?
    ensures ReadAll(stage, a + b, h) == ReadAll(ReadAll(stage, a, h).value, b, h)
    decreases |a|
  {
    if a == [] {
      assert a + b == b;
    } else {
      assert (a + b)[1..] == a[1..] + b;
      ReadAllConcat(Read(stage, a[0].what, h.stepsTotal).value, a[1..], b, h);
    }
  }

  /** One step's events take the reader past it, or leave it at the broken step. */
  lemma EffectIsRead(orc: Oracle, h: Header, step: RunbookStep, ctx: WhenContext, index: nat, w: World)
    requires index < h.stepsTotal
    ensures var t := Effect(orc, h, step, ctx, index, w);
            ReadAll(Between(index), t.events, h) ==
              Some(if t.failed.Some? then Broken(t.failed.value.stepIndex) else Between(index + 1))
  {
    var t := Effect(orc, h, step, ctx, index, w);
    ReadOne(Between(index), t.events[0], h);
    if |t.events| == 2 {
      assert t.events == [t.events[0]] + [t.events[1]];
      ReadAllConcat(Between(index), [t.events[0]], [t.events[1]], h);
      ReadOne(Inside(index), t.events[1], h);
    } else {
      assert t.events == [t.events[0]];
    }
  }

  lemma {:induction false} StepsAreRead(orc: Oracle, h: Header, steps: seq<RunbookStep>, ctx: WhenContext, first: nat,
                                        w: World)
    requires first + |steps| == h.stepsTotal
    ensures var t := ExecConditional(orc, h, steps, ctx, first, w);
            ReadAll(Between(first), t.events, h) ==
              Some(if t.failed.Some? then Broken(t.failed.value.stepIndex) else Between(h.stepsTotal))
  {
    if steps != [] {
      hide Effect, Read;
      var t := Effect(orc, h, steps[0], ctx, first, w);
      EffectIsRead(orc, h, steps[0], ctx, first, w);
      if t.failed.None? {
        StepsAreRead(orc, h, steps[1..], ctx, first + 1, t.world);
        ReadAllConcat(Between(first), t.events, ExecConditional(orc, h, steps[1..], ctx, first + 1, t.world).events, h);
      }
    }
  }

  lemma ReadOne(stage: Stage, e: LifecycleEvent, h: Header)
    requires e.header == h
    ensures ReadAll(stage, [e], h) == Read(stage, e.what, h.stepsTotal)
  {
    assert [e][1..] == [];
  }

  lemma ConcludedLogIsRead(h: Header, t: Trail, completed: nat)
    requires ReadAll(Between(0), t.events, h) ==
               Some(if t.failed.Some? then Broken(t.failed.value.stepIndex) else Between(h.stepsTotal))
    ensures ReadAll(Opening, Conclude(h, t, completed).result.events, h) == Some(Ended(t.failed.None?))
  {
    hide ReadAll;
    var events := Conclude(h, t, completed).result.events;
    var first, last := LifecycleEvent(h, RunbookStarted), events[|events| - 1];
    assert events == [first] + t.events + [last];
    ReadOne(Opening, first, h);
    ReadAllConcat(Opening, [first], t.events, h);
    ReadAllConcat(Opening, [first] + t.events, [last], h);
    ReadOne(if t.failed.Some? then Broken(t.failed.value.stepIndex) else Between(h.stepsTotal), last, h);
  }

  /** Every run's log is a complete word of the lifecycle language, ending as the result says. */
  lemma LogIsLifecycleWord(orc: Oracle, rb: ConditionalRunbook, ctx: WhenContext, w: World)
    ensures var r := RunWithContextSpec(orc, rb, ctx, w).result;
            ReadAll(Opening, r.events, Header(rb.runbookId, |rb.steps|)) == Some(Ended(!r.terminatedEarly))
  {
    hide ReadAll, ExecConditional;
    var h := Header(rb.runbookId, |rb.steps|);
    var t := ExecConditional(orc, h, rb.steps, ctx, 0, w);
    StepsAreRead(orc, h, rb.steps, ctx, 0, w);
    ExecConditionalCounts(orc, h, rb.steps, ctx, 0, w);
    ConcludedLogIsRead(h, t, if t.failed.Some? then |t.outcomes| - 1 else |t.outcomes|);
  }

  /** So is every plain run's. */
  lemma PlainLogIsLifecycleWord(orc: Oracle, rb: Runbook, w: World)
    ensures var r := RunSpec(orc, rb, w).result;
            ReadAll(Opening, r.events, Header(rb.runbookId, |rb.steps|)) == Some(Ended(!r.terminatedEarly))
  {
    var steps := seq(|rb.steps|, i requires 0 <= i < |rb.steps| => RunbookStep(rb.steps[i], None));
    var conditional := ConditionalRunbook(rb.runbookId, steps);
    var ctx := WhenContext("", "");
    UnconditionalIsRun(orc, conditional, ctx, rb, w);
    LogIsLifecycleWord(orc, conditional, ctx, w);
  }
}
