/** Checkpoints, replay and resume (io_iii/core/replay_resume.py). */
module ReplayResume {
  import opened Values
  import opened Runbooks
  import opened Oracles
  import opened Runner

  const CHECKPOINT_SCHEMA_VERSION := "1.0"

  /** Values the code draws while it runs: new identifiers and timestamps. */
  datatype Draws = Draws(newId: Value, newStepIds: nat -> Value, createdAt: string, updatedAt: string)

  ghost predicate Usable(d: Draws) {
    Fresh(d.newId, d.newStepIds)
  }

  // ---- Loading ---------------------------------------------------------------------

  datatype Loaded = Valid(data: Value) | Rejected(code: string)

  predicate ProgressConsistent(data: Value)
    requires data.Dict?
  {
    var completed, total := data.Get("steps_completed"), data.Get("total_steps");
    var last := data.Get("last_completed_step_index");
    && completed.IsInt() && total.IsInt()
    && if completed.AsInt() == 0 then last.Null? else last.IsInt() && 0 <= last.AsInt() < total.AsInt()
  }

  predicate FailureConsistent(data: Value)
    requires data.Dict?
  {
    data.Get("status") == Str("failed") ==>
      !data.Get("failure_kind").Null? && !data.Get("failure_code").Null? && !data.Get("failed_step_index").Null?
  }

  /** `_load_and_validate_checkpoint`. */
  function LoadAndValidate(files: Files, runId: string): Loaded {
    if runId !in files then Rejected("CHECKPOINT_NOT_FOUND")
    else match files[runId]
      case Unreadable => Rejected("CHECKPOINT_INTEGRITY_ERROR")
      case Document(data) =>
        if && data.Dict?
           && data.Get("checkpoint_schema_version") == Str(CHECKPOINT_SCHEMA_VERSION)
           && data.Get("run_id") == Str(runId)
           && data.Get("runbook_snapshot").Dict?
           && PyEqual(data.Get("runbook_id"), data.Get("runbook_snapshot").Get("runbook_id"))
           && ProgressConsistent(data)
           && FailureConsistent(data)
        then Valid(data)
        else Rejected("CHECKPOINT_INTEGRITY_ERROR")
  }

  // ---- Deciding what to run ----------------------------------------------------------

  /** What a replay or a resume decides before it executes anything. */
  datatype Plan =
    | Refuse(code: string, runbookId: Value)
    | Crash(fault: Fault)
    | Go(rb: Runbook, start: nat, total: int)

  function Decode(data: Value, start: nat, d: Draws): Plan
    requires data.Dict? && data.Get("runbook_snapshot").Dict? && data.Get("total_steps").IsInt()
  {
    match Runbook.FromDict(data.Get("runbook_snapshot"), d.newId, d.newStepIds)
    case Err(_) => Refuse("CHECKPOINT_INTEGRITY_ERROR", data.Get("runbook_id"))
    case Ok(rb) => Go(rb, start, data.Get("total_steps").AsInt())
  }

  function ReplayPlan(files: Files, source: string, d: Draws): Plan {
    match LoadAndValidate(files, source)
    case Rejected(code) => Refuse(code, Str(""))
    case Valid(data) =>
      if !data.Has("runbook_id") then Crash(KeyError) else Decode(data, 0, d)
  }

  function ResumePlan(files: Files, source: string, d: Draws): Plan {
    match LoadAndValidate(files, source)
    case Rejected(code) => Refuse(code, Str(""))
    case Valid(data) =>
      if !data.Has("runbook_id") || !data.Has("status") then Crash(KeyError)
      else if data.Get("status") == Str("completed") then Refuse("RESUME_INVALID_STATE", data.Get("runbook_id"))
      else
        var last := data.Get("last_completed_step_index");
        Decode(data, if last.Null? then 0 else last.AsInt() + 1, d)
  }

  // ---- Executing ------------------------------------------------------------------------

  datatype Mode = Replay | Resume

  datatype ReplayResumeResult = ReplayResumeResult(
    success: bool,
    mode: Mode,
    runId: string,
    sourceRunId: string,
    runbookId: Value,
    stepsCompleted: nat,
    totalSteps: int,
    eventCount: Option<nat>,
    failureKind: Option<string>,
    failureCode: Option<string>,
    failedStepIndex: Option<nat>,
    terminatedEarly: Option<bool>)

  /** A call answers with a result or lets an exception escape. */
  datatype Response = Answered(result: ReplayResumeResult) | Escaped(fault: Fault)

  function FailureResult(code: string, mode: Mode, runId: string, source: string,
                         runbookId: Value): ReplayResumeResult {
    ReplayResumeResult(false, mode, runId, source, runbookId, 0, 0, None,
                       Some("contract_violation"), Some(code), None, Some(true))
  }

  /** The progress a terminal checkpoint records. */
  datatype Progress = Progress(
    completed: nat,
    last: Option<nat>,
    failed: bool,
    failureKind: Option<string>,
    failureCode: Option<string>,
    failedStep: Option<nat>)

  function CheckpointEntries(runId: string, source: string, rb: Runbook, total: int, p: Progress,
                             d: Draws): map<Key, Value> {
    map[
      Name("checkpoint_schema_version") := Str(CHECKPOINT_SCHEMA_VERSION),
      Name("run_id") := Str(runId),
      Name("runbook_id") := rb.runbookId,
      Name("source_run_id") := Str(source),
      Name("runbook_snapshot") := rb.ToDict(),
      Name("created_at") := Str(d.createdAt),
      Name("steps_completed") := Int(p.completed),
      Name("last_completed_step_index") := OptInt(p.last),
      Name("total_steps") := Int(total),
      Name("status") := Str(if p.failed then "failed" else "completed"),
      Name("updated_at") := Str(d.updatedAt)]
  }

  /** The document `_write_checkpoint` stores. */
  function CheckpointOf(runId: string, source: string, rb: Runbook, total: int, p: Progress, d: Draws): Value {
    var entries := CheckpointEntries(runId, source, rb, total, p, d);
    Dict(if !p.failed then entries else
           entries[Name("failure_kind") := OptStr(p.failureKind)]
                  [Name("failure_code") := OptStr(p.failureCode)]
                  [Name("failed_step_index") := OptInt(p.failedStep)])
  }

  function Tail(steps: seq<TaskSpec>, start: nat): seq<TaskSpec> {
    if start <= |steps| then steps[start..] else []
  }

  /** The failing step's envelope, looked up in the outcomes at the failed index. */
  function StepFailure(r: RunbookResult): Option<RuntimeFailure> {
    if r.terminatedEarly && r.failedStepIndex.Some? && r.failedStepIndex.value < |r.stepOutcomes|
    then r.stepOutcomes[r.failedStepIndex.value].failure
    else None
  }

  /** Runner-relative progress moved to absolute indices. */
  function ProgressOf(start: nat, r: RunbookResult): Progress {
    Progress(
      r.stepsCompleted,
      if r.stepsCompleted > 0 then Some(start + r.stepsCompleted - 1) else None,
      r.terminatedEarly,
      KindOf(StepFailure(r)),
      CodeOf(StepFailure(r)),
      if r.failedStepIndex.Some? then Some(start + r.failedStepIndex.value) else None)
  }

  const NOTHING_TO_DO := Progress(0, None, false, None, None, None)

  /** One execution: what it answers, the checkpoint it stores, the world it leaves, and the
      runner's own result if the slice was not empty. */
  datatype Execution = Execution(result: ReplayResumeResult, checkpoint: Value, world: World, ran: Option<Ran>)

  function ExecuteSpec(orc: Oracle, runId: string, source: string, rb: Runbook, start: nat, total: int, mode: Mode,
                       d: Draws, w: World): Execution
  {
    var tail := Tail(rb.steps, start);
    if tail == [] then
      Execution(
        ReplayResumeResult(true, mode, runId, source, rb.runbookId, 0, total, Some(0), None, None, None, None),
        CheckpointOf(runId, source, rb, total, NOTHING_TO_DO, d), w, None)
    else
      var ran := RunSpec(orc, Runbook(rb.runbookId, tail), w);
      var p := ProgressOf(start, ran.result);
      var result :=
        if p.failed then
          ReplayResumeResult(false, mode, runId, source, rb.runbookId, p.completed, total, Some(|ran.result.events|),
                             p.failureKind, p.failureCode, p.failedStep, Some(true))
        else
          ReplayResumeResult(true, mode, runId, source, rb.runbookId, p.completed, total, Some(|ran.result.events|),
                             None, None, None, None);
      Execution(result, CheckpointOf(runId, source, rb, total, p, d), ran.world, Some(ran))
  }

  /** A whole replay or resume call. */
  datatype Outcome = Outcome(response: Response, files: Files, world: World)

  function CarryOut(plan: Plan, orc: Oracle, files: Files, runId: string, source: string, mode: Mode, d: Draws,
                    w: World): Outcome {
    match plan
    case Refuse(code, id) => Outcome(Answered(FailureResult(code, mode, runId, source, id)), files, w)
    case Crash(fault) => Outcome(Escaped(fault), files, w)
    case Go(rb, start, total) =>
      var e := ExecuteSpec(orc, runId, source, rb, start, total, mode, d, w);
      Outcome(Answered(e.result), files[runId := Document(e.checkpoint)], e.world)
  }

  /** The checkpoint directory. A file is replaced as a whole. */
  class CheckpointStore {
    var files: Files

    /** `_write_checkpoint`: fill the record and replace the stored one. */
    method WriteCheckpoint(runId: string, source: string, rb: Runbook, total: int, p: Progress, d: Draws)
      modifies this
      ensures files == old(files)[runId := Document(CheckpointOf(runId, source, rb, total, p, d))]
    {
      var data := CheckpointEntries(runId, source, rb, total, p, d);
      if p.failed {
        data := data[Name("failure_kind") := OptStr(p.failureKind)];
        data := data[Name("failure_code") := OptStr(p.failureCode)];
        data := data[Name("failed_step_index") := OptInt(p.failedStep)];
      }
      files := files[runId := Document(Dict(data))];
    }

    /** `_execute`. */
    method Execute(orc: Oracle, runId: string, source: string, rb: Runbook, start: nat, total: int, mode: Mode,
                   d: Draws, w0: World)
      returns (result: ReplayResumeResult, w: World)
      requires rb.WellFormed()
      modifies this
      ensures var e := ExecuteSpec(orc, runId, source, rb, start, total, mode, d, w0);
              result == e.result && w == e.world && files == old(files)[runId := Document(e.checkpoint)]
    {
      var tail := Tail(rb.steps, start);
      if tail == [] {
        WriteCheckpoint(runId, source, rb, total, NOTHING_TO_DO, d);
        result := ReplayResumeResult(true, mode, runId, source, rb.runbookId, 0, total, Some(0), None, None, None,
                                     None);
        return result, w0;
      }
      var sliced := Runbook.Create(tail, rb.runbookId, d.newId);
      var r: RunbookResult, calls: seq<TaskSpec>;
      r, w, calls := Run(orc, sliced.value, w0);
      var p := ProgressOf(start, r);
      WriteCheckpoint(runId, source, rb, total, p, d);
      if r.terminatedEarly {
        result := ReplayResumeResult(false, mode, runId, source, rb.runbookId, p.completed, total, Some(|r.events|),
                                     p.failureKind, p.failureCode, p.failedStep, Some(true));
      } else {
        result := ReplayResumeResult(true, mode, runId, source, rb.runbookId, p.completed, total, Some(|r.events|),
                                     None, None, None, None);
      }
    }

    method Perform(plan: Plan, orc: Oracle, runId: string, source: string, mode: Mode, d: Draws, w0: World)
      returns (response: Response, w: World)
      requires plan.Go? ==> plan.rb.WellFormed()
      modifies this
      ensures Outcome(response, files, w) == CarryOut(plan, orc, old(files), runId, source, mode, d, w0)
    {
      match plan {
        case Refuse(code, id) =>
          response, w := Answered(FailureResult(code, mode, runId, source, id)), w0;
        case Crash(fault) =>
          response, w := Escaped(fault), w0;
        case Go(rb, start, total) =>
          var result: ReplayResumeResult;
          result, w := Execute(orc, runId, source, rb, start, total, mode, d, w0);
          response := Answered(result);
      }
    }

    /** `replay`. */
    method Replay(orc: Oracle, runId: string, source: string, d: Draws, w0: World)
      returns (response: Response, w: World)
      requires Usable(d)
      modifies this
      ensures Outcome(response, files, w) ==
              CarryOut(ReplayPlan(old(files), source, d), orc, old(files), runId, source, Mode.Replay, d, w0)
    {
      PlansAreWellFormed(files, source, d);
      response, w := Perform(ReplayPlan(files, source, d), orc, runId, source, Mode.Replay, d, w0);
    }

    /** `resume`. */
    method Resume(orc: Oracle, runId: string, source: string, d: Draws, w0: World)
      returns (response: Response, w: World)
      requires Usable(d)
      modifies this
      ensures Outcome(response, files, w) ==
              CarryOut(ResumePlan(old(files), source, d), orc, old(files), runId, source, Mode.Resume, d, w0)
    {
      PlansAreWellFormed(files, source, d);
      response, w := Perform(ResumePlan(files, source, d), orc, runId, source, Mode.Resume, d, w0);
    }
  }

  lemma PlansAreWellFormed(files: Files, source: string, d: Draws)
    requires Usable(d)
    ensures ReplayPlan(files, source, d).Go? ==> ReplayPlan(files, source, d).rb.WellFormed()
    ensures ResumePlan(files, source, d).Go? ==> ResumePlan(files, source, d).rb.WellFormed()
  {
    var loaded := LoadAndValidate(files, source);
    if loaded.Valid? {
      FromDictIsWellFormed(loaded.data.Get("runbook_snapshot"), d.newId, d.newStepIds);
    }
  }
}
