/** The execution trace and its recorder (io_iii/core/execution_trace.py). */
module ExecutionTraces {
  import opened Values
  import opened ContentSafety

  datatype TraceStatus = Created | Running | Completed | Failed

  datatype TraceStep = TraceStep(stage: string, startedAtMs: int, durationMs: int, meta: map<Key, Value>)

  /** The transition table. */
  function ValidTransitions(from: TraceStatus): set<TraceStatus> {
    match from
    case Created => {Running, Failed}
    case Running => {Completed, Failed}
    case Completed => {}
    case Failed => {}
  }

  /** The table, pair by pair. */
  lemma TransitionTable(from: TraceStatus, to: TraceStatus)
    ensures to in ValidTransitions(from) <==>
            (from, to) in {(Created, Running), (Created, Failed), (Running, Completed), (Running, Failed)}
  {
  }

  function StatusText(s: TraceStatus): string {
    match s
    case Created => "created"
    case Running => "running"
    case Completed => "completed"
    case Failed => "failed"
  }

  function Stages(steps: seq<TraceStep>): seq<string> {
    seq(|steps|, i requires 0 <= i < |steps| => steps[i].stage)
  }

  class TraceRecorder {
    var status: TraceStatus
    var steps: seq<TraceStep>
    const traceId: string

    constructor (traceId: string)
      ensures status == Created && steps == [] && this.traceId == traceId
    {
      this.traceId := traceId;
      status := Created;
      steps := [];
    }

    /** `_transition`: false when it raises TraceLifecycleError. */
    method Transition(to: TraceStatus) returns (ok: bool)
      modifies this`status
      ensures ok <==> to in ValidTransitions(old(status))
      ensures status == if ok then to else old(status)
    {
      ok := to in ValidTransitions(status);
      if ok {
        status := to;
      }
    }

    /** Entering `step`: the first step starts the trace, a terminal trace takes no more steps. */
    method BeginStep() returns (ok: bool)
      modifies this`status
      ensures ok <==> old(status) in {Created, Running}
      ensures status == if ok then Running else old(status)
    {
      if status == Created {
        var started := Transition(Running);
      }
      ok := status == Running;
    }

    /** Leaving `step`, whether its body returned or raised. */
    method EndStep(step: TraceStep)
      modifies this`steps
      ensures steps == old(steps) + [step]
    {
      steps := steps + [step];
    }
  }

  // ---- Stage timings ------------------------------------------------------------------

  function TotalDuration(steps: seq<TraceStep>): int {
    if steps == [] then 0 else TotalDuration(steps[..|steps| - 1]) + steps[|steps| - 1].durationMs
  }

  /** The total duration recorded under one stage. */
  function StageDuration(steps: seq<TraceStep>, stage: string): int {
    if steps == [] then 0
    else
      var last := steps[|steps| - 1];
      StageDuration(steps[..|steps| - 1], stage) + (if last.stage == stage then last.durationMs else 0)
  }

  ghost function SumOver(m: map<string, int>, keys: set<string>): int
    requires keys <= m.Keys
    decreases |keys|
  {
    if keys == {} then 0 else
      var k :| k in keys;
      m[k] + SumOver(m, keys - {k})
  }

  /** The sum does not depend on the order of the keys. */
  lemma {:induction false} SumOverRemove(m: map<string, int>, keys: set<string>, k: string)
    requires keys <= m.Keys && k in keys
    ensures SumOver(m, keys) == m[k] + SumOver(m, keys - {k})
    decreases |keys|
  {
    var j :| j in keys && SumOver(m, keys) == m[j] + SumOver(m, keys - {j});
    if j != k {
      SumOverRemove(m, keys - {j}, k);
      SumOverRemove(m, keys - {k}, j);
      assert keys - {j} - {k} == keys - {k} - {j};
    }
  }

  lemma {:induction false} SumOverSame(m: map<string, int>, m': map<string, int>, keys: set<string>)
    requires keys <= m.Keys && keys <= m'.Keys
    requires forall k | k in keys :: m[k] == m'[k]
    ensures SumOver(m, keys) == SumOver(m', keys)
    decreases |keys|
  {
    if keys != {} {
      var k :| k in keys && SumOver(m, keys) == m[k] + SumOver(m, keys - {k});
      SumOverRemove(m', keys, k);
      SumOverSame(m, m', keys - {k});
    }
  }

  lemma SumOverNothing(m: map<string, int>)
    requires m == map[]
    ensures SumOver(m, m.Keys) == 0
  {
  }

  /** Adding d to one entry adds d to the sum. */
  lemma SumAfterAdd(m: map<string, int>, k: string, d: int)
    ensures var prev := if k in m then m[k] else 0;
            var m' := m[k := prev + d];
            SumOver(m', m'.Keys) == SumOver(m, m.Keys) + d
  {
    var prev := if k in m then m[k] else 0;
    var m' := m[k := prev + d];
    SumOverRemove(m', m'.Keys, k);
    assert m'.Keys - {k} == m.Keys - {k};
    SumOverSame(m, m', m.Keys - {k});
    if k in m {
      SumOverRemove(m, m.Keys, k);
    } else {
      assert m.Keys - {k} == m.Keys;
    }
  }

  function StagesSeen(steps: seq<TraceStep>): set<string> {
    set i | 0 <= i < |steps| :: steps[i].stage
  }

  /** The summary of a trace: exactly the stages seen, each with its total duration. */
  function Timings(steps: seq<TraceStep>): map<string, int> {
    map s | s in StagesSeen(steps) :: StageDuration(steps, s)
  }

  lemma {:induction false} UnseenStage(steps: seq<TraceStep>, stage: string)
    requires forall i | 0 <= i < |steps| :: steps[i].stage != stage
    ensures StageDuration(steps, stage) == 0
  {
    if steps != [] {
      UnseenStage(steps[..|steps| - 1], stage);
    }
  }

  function Charge(timings: map<string, int>, step: TraceStep): map<string, int> {
    timings[step.stage := (if step.stage in timings then timings[step.stage] else 0) + step.durationMs]
  }

  /** One more step adds its duration to its own stage and leaves the others alone. */
  lemma TimingsAfterStep(steps: seq<TraceStep>, step: TraceStep)
    ensures Timings(steps + [step]) == Charge(Timings(steps), step)
  {
    var all := steps + [step];
    assert all[..|all| - 1] == steps && all[|all| - 1] == step;
    assert StagesSeen(all) == StagesSeen(steps) + {step.stage} by {
      assert forall i | 0 <= i < |steps| :: all[i] == steps[i];
      assert forall s | s in StagesSeen(steps) :: exists i :: 0 <= i < |steps| && all[i].stage == s;
    }
    if step.stage !in StagesSeen(steps) {
      UnseenStage(steps, step.stage);
    }
  }

  ghost function Sum(timings: map<string, int>): int {
    SumOver(timings, timings.Keys)
  }

  lemma AtStart()
    ensures Timings([]) == map[] && Sum(map[]) == 0 && TotalDuration([]) == 0
  {
    SumOverNothing(map[]);
  }

  lemma SumAfterStep(timings: map<string, int>, step: TraceStep)
    ensures Sum(Charge(timings, step)) == Sum(timings) + step.durationMs
  {
    SumAfterAdd(timings, step.stage, step.durationMs);
  }

  lemma TotalAfterStep(steps: seq<TraceStep>, step: TraceStep)
    ensures TotalDuration(steps + [step]) == TotalDuration(steps) + step.durationMs
  {
    assert (steps + [step])[..|steps|] == steps;
  }

  /** A stage that occurs once is charged with its one step. */
  lemma {:induction false} SingleStage(steps: seq<TraceStep>, k: nat)
    requires k < |steps| && forall i | 0 <= i < |steps| && i != k :: steps[i].stage != steps[k].stage
    ensures StageDuration(steps, steps[k].stage) == steps[k].durationMs
  {
    var n := |steps| - 1;
    if k == n {
      UnseenStage(steps[..n], steps[k].stage);
    } else {
      SingleStage(steps[..n], k);
    }
  }

  /** The aggregation in `ExecutionTrace.to_dict`: exactly the stages seen, each with its total
      duration, and nothing of the durations lost or counted twice. */
  method StageTimings(steps: seq<TraceStep>) returns (timings: map<string, int>)
    ensures timings == Timings(steps)
    ensures Sum(timings) == TotalDuration(steps)
  {
    hide Timings, Sum, TotalDuration;
    timings := map[];
    AtStart();
    for i := 0 to |steps|
      invariant timings == Timings(steps[..i])
      invariant Sum(timings) == TotalDuration(steps[..i])
    {
      var s := steps[i];
      assert steps[..i + 1] == steps[..i] + [s];
      TimingsAfterStep(steps[..i], s);
      TotalAfterStep(steps[..i], s);
      SumAfterStep(timings, s);
      timings := timings[s.stage := (if s.stage in timings then timings[s.stage] else 0) + s.durationMs];
    }
    assert steps[..|steps|] == steps;
  }

  // ---- Serialisation --------------------------------------------------------------------

  function StepDict(s: TraceStep): Value {
    Dict(map[
      Name("stage") := Str(s.stage),
      Name("started_at_ms") := Int(s.startedAtMs),
      Name("duration_ms") := Int(s.durationMs),
      Name("meta") := Dict(s.meta)])
  }

  predicate StepReads(v: Value, s: TraceStep) {
    && v.Dict?
    && v.Get("stage") == Str(s.stage) && v.Get("started_at_ms") == Int(s.startedAtMs)
    && v.Get("duration_ms") == Int(s.durationMs) && v.Get("meta") == Dict(s.meta)
  }

  function TimingsDict(timings: map<string, int>): Value {
    Dict(map s | s in timings :: Name(s) := Int(timings[s]))
  }

  function StepList(steps: seq<TraceStep>): Value {
    List(seq(|steps|, i requires 0 <= i < |steps| => StepDict(steps[i])))
  }

  lemma TimingsRead(timings: map<string, int>)
    ensures var d := TimingsDict(timings);
            && d.Dict? && (forall s :: d.Has(s) <==> s in timings)
            && forall s | s in timings :: d.Get(s) == Int(timings[s])
  {
  }

  /** `ExecutionTrace.to_dict`, given its aggregated timings. */
  function TraceDict(traceId: string, status: TraceStatus, startedAtMs: int, steps: seq<TraceStep>,
                     timings: map<string, int>): Value {
    Dict(TraceHeader(traceId, status, startedAtMs)
           [Name("stage_timings") := TimingsDict(timings)]
           [Name("steps") := StepList(steps)])
  }

  function TraceHeader(traceId: string, status: TraceStatus, startedAtMs: int): (m: map<Key, Value>)
    ensures Clean(Dict(m), DEFAULT_FORBIDDEN_KEYS)
    ensures Name("stage_timings") !in m && Name("steps") !in m
  {
    map[
      Name("schema") := Str("io-iii-execution-trace"),
      Name("schema_version") := Str("v1.0"),
      Name("trace_id") := Str(traceId),
      Name("started_at_ms") := Int(startedAtMs),
      Name("status") := Str(StatusText(status))]
  }

  /** The names under which a trace and its steps are written down. */
  lemma TraceDictReads(traceId: string, status: TraceStatus, startedAtMs: int, steps: seq<TraceStep>,
                       timings: map<string, int>)
    ensures var d := TraceDict(traceId, status, startedAtMs, steps, timings);
            && d.Dict?
            && d.Get("trace_id") == Str(traceId) && d.Get("started_at_ms") == Int(startedAtMs)
            && d.Get("status") ==
                 Str(match status case Created => "created" case Running => "running" case Completed => "completed"
                                  case Failed => "failed")
            && d.Get("stage_timings") == TimingsDict(timings)
            && d.Get("steps").List? && |d.Get("steps").items| == |steps|
            && forall i | 0 <= i < |steps| :: StepReads(d.Get("steps").items[i], steps[i])
  {
    hide TimingsDict;
  }

  /** One more entry. */
  lemma CleanEntry(m: map<Key, Value>, k: Key, v: Value, f: set<string>)
    requires k !in m && AllowedKey(k, f)
    ensures Clean(Dict(m[k := v]), f) <==> Clean(Dict(m), f) && Clean(v, f)
  {
    var all := m[k := v];
    assert all[k] == v && forall j | j in m :: j in all && all[j] == m[j];
  }

  /** A trace passes the content guard exactly when its stage names and step metadata do: its own
      fields never offend. */
  lemma TraceDictClean(traceId: string, status: TraceStatus, startedAtMs: int, steps: seq<TraceStep>,
                       timings: map<string, int>)
    ensures Clean(TraceDict(traceId, status, startedAtMs, steps, timings), DEFAULT_FORBIDDEN_KEYS) <==>
            && (forall s | s in timings :: s !in DEFAULT_FORBIDDEN_KEYS)
            && forall i | 0 <= i < |steps| :: Clean(Dict(steps[i].meta), DEFAULT_FORBIDDEN_KEYS)
  {
    hide TimingsDict, StepList, TraceHeader, Clean;
    var header := TraceHeader(traceId, status, startedAtMs);
    TimingsClean(timings, DEFAULT_FORBIDDEN_KEYS);
    StepListClean(steps);
    CleanEntry(header, Name("stage_timings"), TimingsDict(timings), DEFAULT_FORBIDDEN_KEYS);
    CleanEntry(header[Name("stage_timings") := TimingsDict(timings)], Name("steps"), StepList(steps),
               DEFAULT_FORBIDDEN_KEYS);
  }

  lemma StepListClean(steps: seq<TraceStep>)
    ensures Clean(StepList(steps), DEFAULT_FORBIDDEN_KEYS) <==>
            forall i | 0 <= i < |steps| :: Clean(Dict(steps[i].meta), DEFAULT_FORBIDDEN_KEYS)
  {
    var items := StepList(steps).items;
    forall i | 0 <= i < |steps|
      ensures Clean(items[i], DEFAULT_FORBIDDEN_KEYS) <==> Clean(Dict(steps[i].meta), DEFAULT_FORBIDDEN_KEYS)
    {
      StepClean(steps[i]);
    }
  }

  lemma TimingsClean(timings: map<string, int>, f: set<string>)
    ensures Clean(TimingsDict(timings), f) <==> forall s | s in timings :: s !in f
  {
    var d := TimingsDict(timings);
    forall s | s in timings
      ensures Name(s) in d.entries && (AllowedKey(Name(s), f) <==> s !in f)
    {
    }
  }

  lemma StepClean(s: TraceStep)
    ensures Clean(StepDict(s), DEFAULT_FORBIDDEN_KEYS) <==> Clean(Dict(s.meta), DEFAULT_FORBIDDEN_KEYS)
  {
    assert StepDict(s).entries[Name("meta")] == Dict(s.meta);
  }
}
