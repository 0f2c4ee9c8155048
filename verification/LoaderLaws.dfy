/** What the checkpoint loader refuses, from any file, and what a refusal leaves (io_iii/core/replay_resume.py). */
module LoaderLaws {
  import opened Values
  import opened Runbooks
  import opened Oracles
  import opened Runner
  import opened ReplayResume
  import RunnerLaws

  // ---- Acceptance ------------------------------------------------------------------------

  /** Progress a checkpoint may state: no last completed step exactly if none completed, and otherwise
      one within the total. */
  ghost predicate StatesProgress(data: Value)
    requires data.Dict?
  {
    && data.Get("steps_completed").IsInt() && data.Get("total_steps").IsInt()
    && var last := data.Get("last_completed_step_index");
       if data.Get("steps_completed").AsInt() == 0 then last == Null
       else last.IsInt() && last.AsInt() >= 0 && last.AsInt() <= data.Get("total_steps").AsInt() - 1
  }

  /** A checkpoint file is loaded exactly if it is there and readable, records this very run under the
      current schema, belongs to its own snapshot, and states its progress and its failure, if any, in full. */
  lemma LoadedIff(files: Files, runId: string, data: Value)
    ensures LoadAndValidate(files, runId) == Valid(data) <==>
            && runId in files && files[runId] == Document(data) && data.Dict?
            && data.Get("checkpoint_schema_version") == Str("1.0")
            && data.Get("run_id") == Str(runId)
            && data.Get("runbook_snapshot").Dict?
            && PyEqual(data.Get("runbook_id"), data.Get("runbook_snapshot").Get("runbook_id"))
            && StatesProgress(data)
            && (data.Get("status") == Str("failed") ==>
                  Null !in {data.Get("failure_kind"), data.Get("failure_code"), data.Get("failed_step_index")})
  {
  }

  /** Only a missing file is reported as not found; every other refusal is an integrity error. */
  lemma RefusalCodes(files: Files, runId: string)
    ensures var l := LoadAndValidate(files, runId);
            && (l == Rejected("CHECKPOINT_NOT_FOUND") <==> runId !in files)
            && (l.Rejected? && runId in files ==> l == Rejected("CHECKPOINT_INTEGRITY_ERROR"))
  {
  }

  /** The identifiers of a record and its snapshot are compared as Python does: texts by their
      characters, numbers by their value, and nothing else equals a text. */
  lemma IdentifiersCompare(a: string, b: string, n: int, v: Value)
    ensures PyEqual(Str(a), Str(b)) <==> a == b
    ensures PyEqual(Str(a), v) <==> v == Str(a)
    ensures PyEqual(Int(n), v) <==> v == Int(n) || (v.Bool? && n == (if v.flag then 1 else 0)) || v == Float(n as real)
  {
  }

  // Each reason on its own, from any document.

  /** A checkpoint that records one run is not accepted under the id of another. */
  lemma ForeignRunIsRefused(files: Files, runId: string, data: Value)
    requires runId in files && files[runId] == Document(data) && data.Dict? && data.Get("run_id") != Str(runId)
    ensures LoadAndValidate(files, runId) == Rejected("CHECKPOINT_INTEGRITY_ERROR")
  {
  }

  lemma OtherSchemaIsRefused(files: Files, runId: string, data: Value)
    requires runId in files && files[runId] == Document(data) && data.Dict?
    requires data.Get("checkpoint_schema_version") != Str("1.0")
    ensures LoadAndValidate(files, runId) == Rejected("CHECKPOINT_INTEGRITY_ERROR")
  {
  }

  lemma ForeignSnapshotIsRefused(files: Files, runId: string, data: Value)
    requires runId in files && files[runId] == Document(data) && data.Dict?
    requires data.Get("runbook_snapshot").Dict? ==>
               !PyEqual(data.Get("runbook_id"), data.Get("runbook_snapshot").Get("runbook_id"))
    ensures LoadAndValidate(files, runId) == Rejected("CHECKPOINT_INTEGRITY_ERROR")
  {
  }

  lemma LastWithoutProgressIsRefused(files: Files, runId: string, data: Value)
    requires runId in files && files[runId] == Document(data) && data.Dict?
    requires data.Get("steps_completed") == Int(0) && data.Get("last_completed_step_index") != Null
    ensures LoadAndValidate(files, runId) == Rejected("CHECKPOINT_INTEGRITY_ERROR")
  {
  }

  lemma ProgressWithoutLastIsRefused(files: Files, runId: string, data: Value, completed: int, total: int)
    requires runId in files && files[runId] == Document(data) && data.Dict?
    requires data.Get("steps_completed") == Int(completed) && completed != 0 && data.Get("total_steps") == Int(total)
    requires var last := data.Get("last_completed_step_index");
             last.IsInt() ==> last.AsInt() < 0 || last.AsInt() >= total
    ensures LoadAndValidate(files, runId) == Rejected("CHECKPOINT_INTEGRITY_ERROR")
  {
  }

  lemma UnexplainedRecordIsRefused(files: Files, runId: string, data: Value)
    requires runId in files && files[runId] == Document(data) && data.Dict? && data.Get("status") == Str("failed")
    requires Null in {data.Get("failure_kind"), data.Get("failure_code"), data.Get("failed_step_index")}
    ensures LoadAndValidate(files, runId) == Rejected("CHECKPOINT_INTEGRITY_ERROR")
  {
  }

  // ---- What a refusal leaves -----------------------------------------------------------------

  /** The answer to a request whose source was refused. */
  predicate IsRefusal(r: Response, mode: Mode, runId: string, source: string, code: string) {
    && r.Answered?
    && !r.result.success && r.result.failureCode == Some(code) && r.result.failureKind == Some("contract_violation")
    && r.result.mode == mode && r.result.runId == runId && r.result.sourceRunId == source
    && r.result.stepsCompleted == 0 && r.result.eventCount.None? && r.result.failedStepIndex.None?
  }

  /** Replaying or resuming a source that the loader refuses answers with the loader's code, changes no
      file and leaves the world as it was. */
  lemma RefusedSourceChangesNothing(orc: Oracle, files: Files, runId: string, source: string, d: Draws, w: World)
    requires LoadAndValidate(files, source).Rejected?
    ensures var code := LoadAndValidate(files, source).code;
            var replayed := CarryOut(ReplayPlan(files, source, d), orc, files, runId, source, Mode.Replay, d, w);
            var resumed := CarryOut(ResumePlan(files, source, d), orc, files, runId, source, Mode.Resume, d, w);
            && replayed.files == files && replayed.world == w
            && IsRefusal(replayed.response, Mode.Replay, runId, source, code)
            && resumed.files == files && resumed.world == w
            && IsRefusal(resumed.response, Mode.Resume, runId, source, code)
  {
    hide LoadAndValidate;
  }

  /** Resuming a completed run is refused like that as well, from any accepted checkpoint. */
  lemma CompletedIsNotResumed(orc: Oracle, files: Files, runId: string, source: string, d: Draws, w: World)
    requires LoadAndValidate(files, source).Valid?
    requires var data := LoadAndValidate(files, source).data;
             data.Has("runbook_id") && data.Get("status") == Str("completed")
    ensures var resumed := CarryOut(ResumePlan(files, source, d), orc, files, runId, source, Mode.Resume, d, w);
            && resumed.files == files && resumed.world == w
            && IsRefusal(resumed.response, Mode.Resume, runId, source, "RESUME_INVALID_STATE")
  {
    hide LoadAndValidate;
  }

  /** Where any other accepted checkpoint is taken up: resume one past the last completed step, replay at
      0, both with the runbook of the snapshot and the total the checkpoint states. */
  lemma AcceptedIsTakenUp(files: Files, source: string, d: Draws)
    requires LoadAndValidate(files, source).Valid?
    requires var data := LoadAndValidate(files, source).data;
             data.Has("runbook_id") && data.Has("status") && data.Get("status") != Str("completed")
             && Runbook.FromDict(data.Get("runbook_snapshot"), d.newId, d.newStepIds).Ok?
    ensures var data := LoadAndValidate(files, source).data;
            var rb := Runbook.FromDict(data.Get("runbook_snapshot"), d.newId, d.newStepIds).value;
            var last := data.Get("last_completed_step_index");
            && ReplayPlan(files, source, d) == Go(rb, 0, data.Get("total_steps").AsInt())
            && ResumePlan(files, source, d) ==
                 Go(rb, if last == Null then 0 else last.AsInt() + 1, data.Get("total_steps").AsInt())
  {
  }

  // ---- What an execution answers --------------------------------------------------------------

  /** The answer names the run, its source and its runbook and repeats the stored progress; the stored
      document names them too. */
  lemma ExecutionAnswers(orc: Oracle, runId: string, source: string, rb: Runbook, start: nat, total: int, mode: Mode,
                         d: Draws, w: World)
    ensures var e := ExecuteSpec(orc, runId, source, rb, start, total, mode, d, w);
            var r := e.result;
            && r.mode == mode && r.runId == runId && r.sourceRunId == source && r.runbookId == rb.runbookId
            && r.totalSteps == total
            && r.eventCount == Some(if e.ran.Some? then |e.ran.value.result.events| else 0)
            && r.success == !(e.ran.Some? && e.ran.value.result.terminatedEarly)
            && e.world == (if e.ran.Some? then e.ran.value.world else w)
    ensures var data := ExecuteSpec(orc, runId, source, rb, start, total, mode, d, w).checkpoint;
            && data.Dict? && data.Get("run_id") == Str(runId) && data.Get("source_run_id") == Str(source)
            && data.Get("runbook_id") == rb.runbookId && data.Get("runbook_snapshot") == rb.ToDict()
            && data.Get("created_at") == Str(d.createdAt) && data.Get("updated_at") == Str(d.updatedAt)
            && data.Get("total_steps") == Int(total)
            && data.Get("status") ==
                 Str(if ExecuteSpec(orc, runId, source, rb, start, total, mode, d, w).result.success then "completed"
                     else "failed")
  {
    hide RunSpec, StepFailure;
    var e := ExecuteSpec(orc, runId, source, rb, start, total, mode, d, w);
    var p := if e.ran.None? then NOTHING_TO_DO else ProgressOf(start, e.ran.value.result);
    CheckpointNames(runId, source, rb, total, p, d);
  }

  lemma CheckpointNames(runId: string, source: string, rb: Runbook, total: int, p: Progress, d: Draws)
    ensures var data := CheckpointOf(runId, source, rb, total, p, d);
            && data.Dict? && data.Get("run_id") == Str(runId) && data.Get("source_run_id") == Str(source)
            && data.Get("runbook_id") == rb.runbookId && data.Get("runbook_snapshot") == rb.ToDict()
            && data.Get("created_at") == Str(d.createdAt) && data.Get("updated_at") == Str(d.updatedAt)
            && data.Get("total_steps") == Int(total)
            && data.Get("status") == Str(if p.failed then "failed" else "completed")
  {
  }

  /** A failing execution answers and stores the failure of its last call, under the absolute index of the
      step that made it, and the progress in front of it. */
  lemma FailureIsAnswered(orc: Oracle, runId: string, source: string, rb: Runbook, start: nat, total: int, mode: Mode,
                          d: Draws, w: World)
    requires var e := ExecuteSpec(orc, runId, source, rb, start, total, mode, d, w);
             e.ran.Some? && e.ran.value.result.terminatedEarly
    ensures var e := ExecuteSpec(orc, runId, source, rb, start, total, mode, d, w);
            var r, outcomes, data := e.result, e.ran.value.result.stepOutcomes, e.checkpoint;
            && outcomes != [] && data.Dict?
            && var last, n := outcomes[|outcomes| - 1], |outcomes| - 1;
               && r.failureKind == KindOf(last.failure) && r.failureCode == CodeOf(last.failure)
               && r.failedStepIndex == Some(start + n) && r.stepsCompleted == n && r.terminatedEarly == Some(true)
               && data.Get("failure_kind") == OptStr(r.failureKind) && data.Get("failure_code") == OptStr(r.failureCode)
               && data.Get("failed_step_index") == Int(start + n) && data.Get("steps_completed") == Int(n)
               && data.Get("last_completed_step_index") == (if n == 0 then Null else Int(start + n - 1))
  {
    hide RunSpec, CheckpointOf;
    var e := ExecuteSpec(orc, runId, source, rb, start, total, mode, d, w);
    var ran := e.ran.value;
    RunnerLaws.PlainAccounting(orc, Runbook(rb.runbookId, Tail(rb.steps, start)), w);
    FailedNames(runId, source, rb, total, ProgressOf(start, ran.result), d);
  }

  /** The classification of a failure, if it carries one. */
  lemma FailureFields(f: RuntimeFailure)
    ensures KindOf(Some(f)) == Some(f.kind) && CodeOf(Some(f)) == Some(f.code)
    ensures RequestOf(Some(f)) == Some(f.requestId)
    ensures KindOf(None).None? && CodeOf(None).None? && RequestOf(None).None?
  {
  }

  lemma FailedNames(runId: string, source: string, rb: Runbook, total: int, p: Progress, d: Draws)
    requires p.failed
    ensures var data := CheckpointOf(runId, source, rb, total, p, d);
            && data.Dict?
            && data.Get("failure_kind") == OptStr(p.failureKind) && data.Get("failure_code") == OptStr(p.failureCode)
            && data.Get("failed_step_index") == OptInt(p.failedStep) && data.Get("steps_completed") == Int(p.completed)
            && data.Get("last_completed_step_index") == OptInt(p.last)
  {
  }
}
