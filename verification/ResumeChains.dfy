/** Checkpoints that `_execute` writes, and chains of resumes of any length. */
module ResumeChains {
  import opened Values
  import opened SessionStates
  import opened Runbooks
  import opened Oracles
  import opened Runner
  import opened RunnerLaws
  import opened ReplayResume

  // ---- Which written checkpoints can be read back ------------------------------------

  /** A stored document as the loader and the planner see it. */
  ghost predicate Records(data: Value, runId: string, rb: Runbook, total: int, p: Progress) {
    && RecordsProgress(data, runId, rb, total, p)
    && (p.failed ==>
          && data.Get("failure_kind") == OptStr(p.failureKind)
          && data.Get("failure_code") == OptStr(p.failureCode)
          && data.Get("failed_step_index") == OptInt(p.failedStep))
  }

  ghost predicate RecordsProgress(data: Value, runId: string, rb: Runbook, total: int, p: Progress) {
    && data.Dict?
    && data.Get("checkpoint_schema_version") == Str(CHECKPOINT_SCHEMA_VERSION)
    && data.Get("run_id") == Str(runId)
    && data.Has("runbook_id") && data.Get("runbook_id") == rb.runbookId
    && data.Get("runbook_snapshot") == rb.ToDict()
    && data.Get("steps_completed") == Int(p.completed)
    && data.Get("last_completed_step_index") == OptInt(p.last)
    && data.Get("total_steps") == Int(total)
    && data.Has("status") && data.Get("status") == Str(if p.failed then "failed" else "completed")
  }

  lemma EntriesRecord(runId: string, source: string, rb: Runbook, total: int, p: Progress, d: Draws)
    ensures RecordsProgress(Dict(CheckpointEntries(runId, source, rb, total, p, d)), runId, rb, total, p)
  {
  }

  lemma CheckpointRecords(runId: string, source: string, rb: Runbook, total: int, p: Progress, d: Draws)
    ensures Records(CheckpointOf(runId, source, rb, total, p, d), runId, rb, total, p)
  {
    hide CheckpointEntries;
    EntriesRecord(runId, source, rb, total, p, d);
  }

  ghost predicate Acceptable(total: int, p: Progress) {
    && (p.last.Some? ==> p.last.value < total)
    && (p.failed ==> p.failureKind.Some? && p.failureCode.Some? && p.failedStep.Some?)
  }

  lemma LoaderVerdict(files: Files, data: Value, runId: string, rb: Runbook, total: int, p: Progress)
    requires p.completed == 0 <==> p.last.None?
    requires Records(data, runId, rb, total, p)
    ensures LoadAndValidate(files[runId := Document(data)], runId) ==
              if Acceptable(total, p) then Valid(data) else Rejected("CHECKPOINT_INTEGRITY_ERROR")
  {
    assert rb.ToDict().Get("runbook_id") == rb.runbookId;
  }

  /** What resuming a recorded run decides. */
  lemma PlanAfter(files: Files, data: Value, runId: string, rb: Runbook, total: int, p: Progress, d: Draws)
    requires p.completed == 0 <==> p.last.None?
    requires Records(data, runId, rb, total, p) && Usable(d) && rb.WellFormed()
    ensures ResumePlan(files[runId := Document(data)], runId, d) ==
              if !Acceptable(total, p) then Refuse("CHECKPOINT_INTEGRITY_ERROR", Str(""))
              else if !p.failed then Refuse("RESUME_INVALID_STATE", rb.runbookId)
              else Go(rb, if p.last.None? then 0 else p.last.value + 1, total)
  {
    LoaderVerdict(files, data, runId, rb, total, p);
    RunbookRoundTrip(rb, d.newId, d.newStepIds);
  }

  /** The progress an execution records. */
  function ProgressIn(e: Execution, start: nat): Progress {
    if e.ran.None? then NOTHING_TO_DO else ProgressOf(start, e.ran.value.result)
  }

  lemma ExecutionRecords(orc: Oracle, runId: string, source: string, rb: Runbook, start: nat, total: int, mode: Mode,
                         d: Draws, w: World) returns (e: Execution, p: Progress)
    ensures e == ExecuteSpec(orc, runId, source, rb, start, total, mode, d, w) && p == ProgressIn(e, start)
    ensures Records(e.checkpoint, runId, rb, total, p)
    ensures e.result.success == !p.failed && e.result.stepsCompleted == p.completed
    ensures p.completed == 0 <==> p.last.None?
    ensures p.last.Some? ==> p.last.value == start + p.completed - 1
    ensures Acceptable(total, p) <==> (p.completed == 0 || start + p.completed - 1 < total) && Explained(e)
    ensures start <= |rb.steps| ==>
              start + p.completed <= |rb.steps| && (!p.failed ==> start + p.completed == |rb.steps|)
    ensures Done(start, e) == Range(start, start + p.completed)
    ensures p.completed > 0 ==> start + p.completed <= |rb.steps|
  {
    hide CheckpointOf;
    e := ExecuteSpec(orc, runId, source, rb, start, total, mode, d, w);
    p := ProgressIn(e, start);
    CheckpointRecords(runId, source, rb, total, p, d);
    if e.ran.Some? {
      PlainAccounting(orc, Runbook(rb.runbookId, Tail(rb.steps, start)), w);
      var r := e.ran.value.result;
      CompletedStepsAreARange(start, r.stepOutcomes, r.stepsCompleted);
    }
  }

  /** An execution carried the failing step's envelope, if any step failed. */
  ghost predicate Explained(e: Execution) {
    e.ran.Some? && e.ran.value.result.terminatedEarly ==> StepFailure(e.ran.value.result).Some?
  }

  /** A stored checkpoint is accepted under its own run id if and only if the run completed or the
      failing step's exception carried an envelope, as long as total_steps covers the last completed
      index; with total_steps equal to the runbook's length that always holds. */
  lemma CheckpointAccepted(orc: Oracle, files: Files, runId: string, source: string, rb: Runbook, start: nat,
                           total: int, mode: Mode, d: Draws, w: World)
    ensures var e := ExecuteSpec(orc, runId, source, rb, start, total, mode, d, w);
            var covers := e.result.stepsCompleted == 0 || start + e.result.stepsCompleted - 1 < total;
            && LoadAndValidate(files[runId := Document(e.checkpoint)], runId) ==
                 (if covers && Explained(e) then Valid(e.checkpoint) else Rejected("CHECKPOINT_INTEGRITY_ERROR"))
            && (total == |rb.steps| ==> covers)
  {
    hide ExecuteSpec, ResumePlan, LoadAndValidate;
    var e, p := ExecutionRecords(orc, runId, source, rb, start, total, mode, d, w);
    LoaderVerdict(files, e.checkpoint, runId, rb, total, p);
  }

  /** A slice whose first step raises without an envelope leaves a checkpoint nothing can resume. */
  lemma UnexplainedFailureIsUnreadable(orc: Oracle, files: Files, runId: string, source: string, rb: Runbook,
                                       start: nat, mode: Mode, d: Draws, w: World)
    requires start < |rb.steps|
    requires var reply := orc(w, rb.steps[start]); reply.Raised? && reply.failure.None?
    ensures var e := ExecuteSpec(orc, runId, source, rb, start, |rb.steps|, mode, d, w);
            ResumePlan(files[runId := Document(e.checkpoint)], runId, d) ==
            Refuse("CHECKPOINT_INTEGRITY_ERROR", Str(""))
  {
    var e := ExecuteSpec(orc, runId, source, rb, start, |rb.steps|, mode, d, w);
    FirstStepFails(orc, rb, start, w);
    assert !Explained(e);
    CheckpointAccepted(orc, files, runId, source, rb, start, |rb.steps|, mode, d, w);
  }

  lemma FirstStepFails(orc: Oracle, rb: Runbook, start: nat, w: World)
    requires start < |rb.steps| && orc(w, rb.steps[start]).Raised?
    ensures var r := RunSpec(orc, Runbook(rb.runbookId, Tail(rb.steps, start)), w).result;
            && r.terminatedEarly && r.stepsCompleted == 0
            && StepFailure(r) == orc(w, rb.steps[start]).failure
  {
    var tail := Runbook(rb.runbookId, Tail(rb.steps, start));
    assert tail.steps[0] == rb.steps[start];
    RunFields(orc, tail, w);
    PlainAccounting(orc, tail, w);
  }

  // ---- Slice and offset ------------------------------------------------------------------

  /** Running the rest of a runbook from where its front left the world reports the failed index,
      and the last completed one if any step completes, of the run of the whole. */
  lemma SliceReportsAbsoluteIndices(orc: Oracle, runId: string, source: string, rb: Runbook, start: nat, total: int,
                                    mode: Mode, d: Draws, w: World)
    requires start < |rb.steps|
    requires !RunSpec(orc, Runbook(rb.runbookId, rb.steps[..start]), w).result.terminatedEarly
    ensures var front := RunSpec(orc, Runbook(rb.runbookId, rb.steps[..start]), w);
            var whole := RunSpec(orc, rb, w);
            var e := ExecuteSpec(orc, runId, source, rb, start, total, mode, d, front.world);
            && e.world == whole.world
            && e.result.success == !whole.result.terminatedEarly
            && e.result.failedStepIndex == whole.result.failedStepIndex
            && start + e.result.stepsCompleted == whole.result.stepsCompleted
            && e.checkpoint.Dict?
            && e.checkpoint.Get("last_completed_step_index") ==
                 (if e.result.stepsCompleted == 0 then Null else Int(whole.result.stepsCompleted - 1))
  {
    hide RunSpec, CheckpointOf;
    var a, b := rb.steps[..start], rb.steps[start..];
    assert rb.steps == a + b;
    RunComposes(orc, rb.runbookId, a, b, w);
    var back := RunSpec(orc, Runbook(rb.runbookId, b), RunSpec(orc, Runbook(rb.runbookId, a), w).world);
    PlainAccounting(orc, Runbook(rb.runbookId, b), RunSpec(orc, Runbook(rb.runbookId, a), w).world);
    CheckpointRecords(runId, source, rb, total, ProgressOf(start, back.result), d);
  }

  // ---- One link -----------------------------------------------------------------------------

  function Range(lo: nat, hi: nat): (r: seq<nat>)
    requires lo <= hi
    ensures |r| == hi - lo && forall i | 0 <= i < |r| :: r[i] == lo + i
  {
    seq(hi - lo, i requires 0 <= i => lo + i)
  }

  /** The absolute indices of the steps an execution completed, in the order it completed them. */
  function CompletedSteps(start: nat, outcomes: seq<StepOutcome>): seq<nat> {
    if outcomes == [] then []
    else
      CompletedSteps(start, outcomes[..|outcomes| - 1])
      + (if outcomes[|outcomes| - 1].success then [start + outcomes[|outcomes| - 1].stepIndex] else [])
  }

  lemma {:induction false} CompletedStepsAreARange(start: nat, outcomes: seq<StepOutcome>, c: nat)
    requires c <= |outcomes|
    requires forall k | 0 <= k < |outcomes| :: outcomes[k].stepIndex == k && outcomes[k].success == (k < c)
    ensures CompletedSteps(start, outcomes) == Range(start, start + c)
  {
    var n := |outcomes|;
    if n > 0 {
      CompletedStepsAreARange(start, outcomes[..n - 1], if c == n then n - 1 else c);
    }
  }

  function Done(start: nat, e: Execution): seq<nat> {
    if e.ran.None? then [] else CompletedSteps(start, e.ran.value.result.stepOutcomes)
  }

  /** What a link does to the next one: each execution completes a contiguous range starting at its
      start index; success reaches the end; a failure with an envelope is resumed right after the
      last completed step, or from 0 if the link completed none. A total_steps that does not cover the
      last completed step is refused. `d'` are the values the next link draws. */
  lemma LinkStep(orc: Oracle, files: Files, runId: string, source: string, rb: Runbook, start: nat, total: int,
                 d: Draws, w: World, d': Draws)
    requires Usable(d') && rb.WellFormed()
    ensures var e := ExecuteSpec(orc, runId, source, rb, start, total, Mode.Resume, d, w);
            var c := e.result.stepsCompleted;
            && (c > 0 ==> start + c <= |rb.steps|)
            && Done(start, e) == Range(start, start + c)
            && (e.result.success ==> start + c >= |rb.steps|)
            && ResumePlan(files[runId := Document(e.checkpoint)], runId, d') ==
                 if (c > 0 && start + c > total) || !Explained(e) then Refuse("CHECKPOINT_INTEGRITY_ERROR", Str(""))
                 else if e.result.success then Refuse("RESUME_INVALID_STATE", rb.runbookId)
                 else Go(rb, if c == 0 then 0 else start + c, total)
  {
    hide ExecuteSpec, ResumePlan, LoadAndValidate;
    var e, p := ExecutionRecords(orc, runId, source, rb, start, total, Mode.Resume, d, w);
    PlanAfter(files, e.checkpoint, runId, rb, total, p, d');
  }

  // ---- Chains ----------------------------------------------------------------------------------

  /** A resume under a new run id, in whatever world it finds and with whatever values it draws. */
  datatype Link = Link(runId: string, world: World, draws: Draws)

  datatype Report = Report(plan: Plan, response: Response, done: seq<nat>)

  function ReportOf(plan: Plan, orc: Oracle, files: Files, source: string, link: Link): Report {
    Report(plan,
           CarryOut(plan, orc, files, link.runId, source, Mode.Resume, link.draws, link.world).response,
           if plan.Go? then Done(plan.start, ExecutionOf(plan, orc, source, link)) else [])
  }

  function ExecutionOf(plan: Plan, orc: Oracle, source: string, link: Link): Execution
    requires plan.Go?
  {
    ExecuteSpec(orc, link.runId, source, plan.rb, plan.start, plan.total, Mode.Resume, link.draws, link.world)
  }

  /** Resume `source`, then resume that run, and so on. */
  function Chain(orc: Oracle, files: Files, source: string, links: seq<Link>): (reports: seq<Report>)
    ensures |reports| == |links|
    decreases |links|
  {
    if links == [] then []
    else
      var link := links[0];
      var plan := ResumePlan(files, source, link.draws);
      var files' := CarryOut(plan, orc, files, link.runId, source, Mode.Resume, link.draws, link.world).files;
      [ReportOf(plan, orc, files, source, link)] + Chain(orc, files', link.runId, links[1..])
  }

  /** Run ids are new: not on disk yet and pairwise different. */
  ghost predicate NewIds(files: Files, links: seq<Link>) {
    && (forall i | 0 <= i < |links| :: links[i].runId !in files)
    && forall i, j | 0 <= i < j < |links| :: links[i].runId != links[j].runId
  }

  predicate Succeeded(r: Report) {
    r.response.Answered? && r.response.result.success
  }

  /** A source that the loader accepts and that resumes a well-formed runbook at `start`. Whatever
      total_steps its checkpoint states is passed on. */
  ghost predicate Resumable(files: Files, source: string, d: Draws, rb: Runbook, start: nat, total: int) {
    rb.WellFormed() && ResumePlan(files, source, d) == Go(rb, start, total)
  }

  /** These links can resume this source. */
  ghost predicate Begins(files: Files, source: string, links: seq<Link>, rb: Runbook, start: nat, total: int) {
    && NewIds(files, links)
    && (forall i | 0 <= i < |links| :: Usable(links[i].draws))
    && (links != [] ==> Resumable(files, source, links[0].draws, rb, start, total))
  }

  /** Once a link cannot start, no later one can. */
  lemma {:induction false} RefusalIsFinal(orc: Oracle, files: Files, source: string, links: seq<Link>)
    requires NewIds(files, links) && (links != [] ==> !ResumePlan(files, source, links[0].draws).Go?)
    ensures forall i | 0 <= i < |links| ::
              var r := Chain(orc, files, source, links)[i];
              !r.plan.Go? && !Succeeded(r) && r.done == []
    decreases |links|
  {
    hide ExecuteSpec;
    if links != [] {
      assert forall i | 0 <= i < |links[1..]| :: links[1..][i] == links[i + 1];
      RefusalIsFinal(orc, files, links[0].runId, links[1..]);
      var rest := Chain(orc, files, links[0].runId, links[1..]);
      assert forall i | 0 < i < |links| :: Chain(orc, files, source, links)[i] == rest[i - 1];
    }
  }

  /** No link of this chain starts. */
  ghost predicate Stopped(reports: seq<Report>) {
    forall i | 0 <= i < |reports| :: !reports[i].plan.Go? && !Succeeded(reports[i]) && reports[i].done == []
  }

  /** The shape of a chain over a runbook that is next to resume at `start`. */
  ghost predicate Shape(reports: seq<Report>, rb: Runbook, total: int, start: nat)
    decreases |reports|, 0
  {
    reports != [] ==>
      && Fits(reports[0], rb, total, start)
      && Continues(reports[0], reports[1..], rb, total, start)
  }

  ghost predicate Fits(r: Report, rb: Runbook, total: int, start: nat) {
    && r.plan == Go(rb, start, total)
    && (r.done != [] ==> start + |r.done| <= |rb.steps|)
    && r.done == Range(start, start + |r.done|)
    && (Succeeded(r) ==> start + |r.done| >= |rb.steps|)
  }

  ghost predicate Continues(r: Report, rest: seq<Report>, rb: Runbook, total: int, start: nat)
    decreases |rest|, 1
  {
    Stopped(rest) || (!Succeeded(r) && Shape(rest, rb, total, if r.done == [] then 0 else start + |r.done|))
  }

  lemma ShapeFromParts(r: Report, rest: seq<Report>, rb: Runbook, total: int, start: nat)
    requires Fits(r, rb, total, start) && Continues(r, rest, rb, total, start)
    ensures Shape([r] + rest, rb, total, start)
  {
    assert ([r] + rest)[1..] == rest;
  }

  /** A link that runs fits, and the next one can resume from where it stopped, or is refused. */
  lemma LinkFits(orc: Oracle, files: Files, source: string, link: Link, rb: Runbook, start: nat, total: int, d': Draws)
    requires Usable(d') && rb.WellFormed()
    ensures var plan := Go(rb, start, total);
            var r := ReportOf(plan, orc, files, source, link);
            var files' := files[link.runId := Document(ExecutionOf(plan, orc, source, link).checkpoint)];
            var next := ResumePlan(files', link.runId, d');
            && Fits(r, rb, total, start)
            && (next.Go? ==> !Succeeded(r) && next == Go(rb, if r.done == [] then 0 else start + |r.done|, total))
  {
    hide ResumePlan, ExecuteSpec, Done;
    LinkStep(orc, files, link.runId, source, rb, start, total, link.draws, link.world, d');
  }

  lemma {:induction false} ChainHasShape(orc: Oracle, files: Files, source: string, links: seq<Link>,
                                         rb: Runbook, start: nat, total: int)
    requires Begins(files, source, links, rb, start, total)
    ensures Shape(Chain(orc, files, source, links), rb, total, start)
    decreases |links|
  {
    hide ResumePlan, ExecutionOf, Fits, Succeeded;
    if links != [] {
      var link, tail, plan := links[0], links[1..], Go(rb, start, total);
      var next := if tail == [] then link.draws else tail[0].draws;
      LinkFits(orc, files, source, link, rb, start, total, next);
      var files' := files[link.runId := Document(ExecutionOf(plan, orc, source, link).checkpoint)];
      var r := ReportOf(plan, orc, files, source, link);
      TailBegins(files, files', link, links);
      if tail != [] && ResumePlan(files', link.runId, next).Go? {
        ChainHasShape(orc, files', link.runId, tail, rb, if r.done == [] then 0 else start + |r.done|, total);
      } else {
        RefusalIsFinal(orc, files', link.runId, tail);
      }
      CarriedOut(orc, files, source, link, plan);
      ShapeFromParts(r, Chain(orc, files', link.runId, tail), rb, total, start);
    }
  }

  lemma TailBegins(files: Files, files': Files, link: Link, links: seq<Link>)
    requires NewIds(files, links) && forall i | 0 <= i < |links| :: Usable(links[i].draws)
    requires links != [] && link == links[0] && files'.Keys == files.Keys + {link.runId}
    ensures NewIds(files', links[1..]) && forall i | 0 <= i < |links[1..]| :: Usable(links[1..][i].draws)
  {
    assert forall i | 0 <= i < |links[1..]| :: links[1..][i] == links[i + 1];
  }

  lemma CarriedOut(orc: Oracle, files: Files, source: string, link: Link, plan: Plan)
    requires plan.Go?
    ensures CarryOut(plan, orc, files, link.runId, source, Mode.Resume, link.draws, link.world).files ==
            files[link.runId := Document(ExecutionOf(plan, orc, source, link).checkpoint)]
  {
  }

  lemma {:induction false} ShapeCovers(reports: seq<Report>, rb: Runbook, total: int, start: nat, step: nat)
    returns (k: nat)
    requires Shape(reports, rb, total, start) && reports != [] && Succeeded(reports[|reports| - 1])
    requires start <= step < |rb.steps|
    ensures k < |reports| && step in reports[k].done
    decreases |reports|
  {
    var c := |reports[0].done|;
    if step < start + c {
      assert reports[0].done[step - start] == step;
      k := 0;
    } else {
      assert !Succeeded(reports[0]);
      assert reports[1..][|reports| - 2] == reports[|reports| - 1];
      k := ShapeCovers(reports[1..], rb, total, if c == 0 then 0 else start + c, step);
      k := k + 1;
    }
  }

  /** At least once: if the last link of a chain succeeds, every step was completed by the source
      (the steps below its resume index) or by some link. */
  lemma AtLeastOnce(orc: Oracle, files: Files, source: string, links: seq<Link>, rb: Runbook, start: nat, total: int,
                    step: nat)
    requires Begins(files, source, links, rb, start, total)
    requires links != [] && Succeeded(Chain(orc, files, source, links)[|links| - 1])
    requires step < |rb.steps|
    ensures step < start || exists k :: 0 <= k < |links| && step in Chain(orc, files, source, links)[k].done
  {
    hide Chain, ResumePlan;
    ChainHasShape(orc, files, source, links, rb, start, total);
    if start <= step {
      var k := ShapeCovers(Chain(orc, files, source, links), rb, total, start, step);
    }
  }

  lemma {:induction false} ShapeRanges(reports: seq<Report>, rb: Runbook, total: int, start: nat, k: nat)
    requires Shape(reports, rb, total, start) && k < |reports|
    ensures var r := reports[k];
            if r.plan.Go? then
              && r.plan.rb == rb && r.plan.total == total
              && (r.done != [] ==> r.plan.start + |r.done| <= |rb.steps|)
              && r.done == Range(r.plan.start, r.plan.start + |r.done|)
              && (Succeeded(r) ==> r.plan.start + |r.done| >= |rb.steps|)
            else r.done == [] && !Succeeded(r)
    decreases k
  {
    if k > 0 {
      assert reports[1..][k - 1] == reports[k];
      if !Stopped(reports[1..]) {
        var c := |reports[0].done|;
        ShapeRanges(reports[1..], rb, total, if c == 0 then 0 else start + c, k - 1);
      }
    }
  }

  /** Every link that runs, runs the same runbook with the same total_steps, and completes a contiguous
      ascending range from its start index; one that succeeds reaches the end. */
  lemma EachLinkCompletesARange(orc: Oracle, files: Files, source: string, links: seq<Link>,
                                rb: Runbook, start: nat, total: int, k: nat)
    requires Begins(files, source, links, rb, start, total) && k < |links|
    ensures var r := Chain(orc, files, source, links)[k];
            if r.plan.Go? then
              && r.plan.rb == rb && r.plan.total == total
              && (r.done != [] ==> r.plan.start + |r.done| <= |rb.steps|)
              && r.done == Range(r.plan.start, r.plan.start + |r.done|)
              && (Succeeded(r) ==> r.plan.start + |r.done| >= |rb.steps|)
            else r.done == [] && !Succeeded(r)
  {
    hide Chain, ResumePlan;
    ChainHasShape(orc, files, source, links, rb, start, total);
    ShapeRanges(Chain(orc, files, source, links), rb, total, start, k);
  }

  // ---- Exactly once ---------------------------------------------------------------------------

  /** All completions of a chain, in order. */
  function AllDone(reports: seq<Report>): seq<nat> {
    if reports == [] then [] else reports[0].done + AllDone(reports[1..])
  }

  predicate Distinct(s: seq<nat>) {
    forall i, j | 0 <= i < j < |s| :: s[i] != s[j]
  }

  /** Link k resumed past the beginning and completed nothing, and link m after it completed something. */
  predicate LosesPlace(reports: seq<Report>, k: int, m: int) {
    && 0 <= k < m < |reports|
    && reports[k].plan.Go? && reports[k].plan.start > 0 && reports[k].done == []
    && reports[m].done != []
  }

  ghost predicate SomeLinkLosesPlace(reports: seq<Report>) {
    exists k, m :: LosesPlace(reports, k, m)
  }

  lemma {:induction false} AllDoneEmpty(reports: seq<Report>)
    ensures AllDone(reports) == [] <==> forall m | 0 <= m < |reports| :: reports[m].done == []
  {
    if reports != [] {
      AllDoneEmpty(reports[1..]);
      assert forall m | 0 < m < |reports| :: reports[m] == reports[1..][m - 1];
    }
  }

  /** A chain that is back at the beginning completes step 0 first, if it completes anything. */
  lemma {:induction false} FromZero(reports: seq<Report>, rb: Runbook, total: int)
    requires Stopped(reports) || Shape(reports, rb, total, 0)
    ensures AllDone(reports) == [] || AllDone(reports)[0] == 0
    decreases |reports|
  {
    if Stopped(reports) {
      AllDoneEmpty(reports);
    } else if reports[0].done == [] {
      FromZero(reports[1..], rb, total);
    }
  }

  lemma {:induction false} ShapeExactlyOnce(reports: seq<Report>, rb: Runbook, total: int, start: nat)
    requires Shape(reports, rb, total, start)
    ensures Distinct(Range(0, start) + AllDone(reports)) <==> !SomeLinkLosesPlace(reports)
    decreases |reports|
  {
    hide SomeLinkLosesPlace;
    StoppedLosesNothing([]);
    if reports != [] {
      var rest, c := reports[1..], |reports[0].done|;
      if start > 0 && c == 0 {
        LosingFirstLink(reports, rb, total, start);
      } else {
        LosesPlaceLater(reports);
        KeepingFirstLink(reports, start);
        if Stopped(rest) {
          StoppedLosesNothing(rest);
        } else {
          ShapeExactlyOnce(rest, rb, total, start + c);
        }
      }
    }
  }

  lemma StoppedLosesNothing(reports: seq<Report>)
    requires Stopped(reports)
    ensures !SomeLinkLosesPlace(reports) && AllDone(reports) == []
  {
    AllDoneEmpty(reports);
  }

  lemma RangesJoin(a: nat, b: nat)
    requires a <= b
    ensures Range(0, a) + Range(a, b) == Range(0, b)
  {
  }

  lemma ConcatAssociates<T>(a: seq<T>, b: seq<T>, c: seq<T>)
    ensures a + (b + c) == (a + b) + c
  {
  }

  lemma KeepingFirstLink(reports: seq<Report>, start: nat)
    requires reports != [] && reports[0].done == Range(start, start + |reports[0].done|)
    ensures Range(0, start) + AllDone(reports) == Range(0, start + |reports[0].done|) + AllDone(reports[1..])
  {
    hide Range;
    var done := reports[0].done;
    RangesJoin(start, start + |done|);
    assert AllDone(reports) == done + AllDone(reports[1..]);
    ConcatAssociates(Range(0, start), done, AllDone(reports[1..]));
  }

  /** After a link that loses its place, completing anything completes step 0 again. */
  lemma LosingFirstLink(reports: seq<Report>, rb: Runbook, total: int, start: nat)
    requires reports != [] && Shape(reports, rb, total, start) && start > 0 && reports[0].done == []
    ensures Distinct(Range(0, start) + AllDone(reports)) <==> !SomeLinkLosesPlace(reports)
  {
    var rest := reports[1..];
    hide SomeLinkLosesPlace;
    LosesPlaceAtOnce(reports);
    AllDoneEmpty(rest);
    FromZero(rest, rb, total);
    var log := Range(0, start) + AllDone(reports);
    assert AllDone(rest) != [] ==> log[0] == 0 == log[start];
  }

  lemma LosesPlaceAtOnce(reports: seq<Report>)
    requires reports != [] && reports[0].plan.Go? && reports[0].plan.start > 0 && reports[0].done == []
    ensures SomeLinkLosesPlace(reports) <==> exists m | 0 <= m < |reports[1..]| :: reports[1..][m].done != []
  {
    if k, m :| LosesPlace(reports, k, m) {
      assert reports[1..][m - 1].done != [];
    }
    if m :| 0 <= m < |reports[1..]| && reports[1..][m].done != [] {
      assert LosesPlace(reports, 0, m + 1);
    }
  }

  lemma LosesPlaceLater(reports: seq<Report>)
    requires reports != [] && !(reports[0].plan.Go? && reports[0].plan.start > 0 && reports[0].done == [])
    ensures SomeLinkLosesPlace(reports) <==> SomeLinkLosesPlace(reports[1..])
  {
    if k, m :| LosesPlace(reports, k, m) {
      assert LosesPlace(reports[1..], k - 1, m - 1);
    }
    if k, m :| LosesPlace(reports[1..], k, m) {
      assert LosesPlace(reports, k + 1, m + 1);
    }
  }

  /** Exactly once: no step is completed twice, by the source or by any link, if and only if no link
      that resumed past the beginning completed nothing before a later link completed something. */
  lemma ExactlyOnceIff(orc: Oracle, files: Files, source: string, links: seq<Link>, rb: Runbook, start: nat, total: int)
    requires Begins(files, source, links, rb, start, total)
    ensures var reports := Chain(orc, files, source, links);
            Distinct(Range(0, start) + AllDone(reports)) <==> !SomeLinkLosesPlace(reports)
  {
    hide Chain, ResumePlan;
    ChainHasShape(orc, files, source, links, rb, start, total);
    ShapeExactlyOnce(Chain(orc, files, source, links), rb, total, start);
  }

  // A chain that completes a step twice.

  const FIRST := TaskSpec(Str("first"), "executor", "p", [], map[])
  const SECOND := TaskSpec(Str("second"), "executor", "p", [], map[])
  const TWO_STEPS := Runbook(Str("two"), [FIRST, SECOND])

  /** The second step always fails, with an envelope. */
  function FailsOnSecond(state: SessionState, result: ExecutionResult): Oracle {
    (w: World, spec: TaskSpec) =>
      if spec == SECOND then Raised(w, Some(RuntimeFailure("provider_execution", "PROVIDER_UNAVAILABLE", "r", None)))
      else Returned(w, state, result)
  }

  lemma SecondNeverCompletes(state: SessionState, result: ExecutionResult, start: nat, w: World)
    requires start < 2
    ensures var rest := Runbook(TWO_STEPS.runbookId, Tail(TWO_STEPS.steps, start));
            var r := RunSpec(FailsOnSecond(state, result), rest, w).result;
            r.terminatedEarly && r.stepsCompleted == 1 - start && StepFailure(r).Some?
  {
    var orc := FailsOnSecond(state, result);
    if start == 1 {
      FirstStepFails(orc, TWO_STEPS, 1, w);
    } else {
      var whole := Runbook(TWO_STEPS.runbookId, TWO_STEPS.steps);
      var work := Numbered(TWO_STEPS.steps, 0);
      var h := Header(whole.runbookId, 2);
      assert Tail(TWO_STEPS.steps, 0) == TWO_STEPS.steps;
      assert ExecStep(orc, h, work[0], w).failed.None?;
      assert work[1..] == [Labelled(1, SECOND)];
      var rest := Exec(orc, h, work[1..], w);
      assert rest == ExecStep(orc, h, Labelled(1, SECOND), w);
      assert Exec(orc, h, work, w) == ExecStep(orc, h, work[0], w).Then(rest);
      RunFields(orc, whole, w);
    }
  }

  /** A stored run of the two steps that completed step 0 and failed at step 1. */
  function StoppedAfterFirst(d: Draws): Files {
    var stopped := Progress(1, Some(0), true, Some("provider_execution"), Some("PROVIDER_UNAVAILABLE"), Some(1));
    map["source" := Document(CheckpointOf("source", "", TWO_STEPS, 2, stopped, d))]
  }

  lemma TwoStepsWellFormed()
    ensures TWO_STEPS.WellFormed() && |TWO_STEPS.steps| == 2
  {
    assert FIRST.WellFormed() && SECOND.WellFormed();
  }

  lemma RecordedIsResumable(runId: string, source: string, rb: Runbook, p: Progress, d: Draws)
    requires Usable(d) && rb.WellFormed()
    requires p.failed && p.last.Some? && p.last.value + 1 == p.completed <= |rb.steps| && Acceptable(|rb.steps|, p)
    ensures var files: Files := map[runId := Document(CheckpointOf(runId, source, rb, |rb.steps|, p, d))];
            Resumable(files, runId, d, rb, p.completed, |rb.steps|)
  {
    hide ResumePlan, CheckpointOf;
    var data := CheckpointOf(runId, source, rb, |rb.steps|, p, d);
    assert map[][runId := Document(data)] == map[runId := Document(data)];
    CheckpointRecords(runId, source, rb, |rb.steps|, p, d);
    PlanAfter(map[], data, runId, rb, |rb.steps|, p, d);
  }

  lemma StoppedIsResumable(d: Draws)
    requires Usable(d)
    ensures Resumable(StoppedAfterFirst(d), "source", d, TWO_STEPS, 1, 2)
  {
    hide Resumable, CheckpointOf;
    TwoStepsWellFormed();
    var stopped := Progress(1, Some(0), true, Some("provider_execution"), Some("PROVIDER_UNAVAILABLE"), Some(1));
    RecordedIsResumable("source", "", TWO_STEPS, stopped, d);
  }

  /** The source has completed step 0. The first link fails at once, so the second starts over and
      completes step 0 again. */
  lemma StepCompletedTwice(state: SessionState, result: ExecutionResult, d: Draws, w: World)
    requires Usable(d)
    ensures var files, links := StoppedAfterFirst(d), [Link("one", w, d), Link("two", w, d)];
            var reports := Chain(FailsOnSecond(state, result), files, "source", links);
            && Begins(files, "source", links, TWO_STEPS, 1, 2)
            && reports[0].done == [] && reports[1].done == [0]
            && !Distinct(Range(0, 1) + AllDone(reports))
  {
    hide ExecuteSpec, ResumePlan, CheckpointOf, Chain, FailsOnSecond, Distinct, AllDone;
    var orc, files := FailsOnSecond(state, result), StoppedAfterFirst(d);
    var link, next := Link("one", w, d), Link("two", w, d);
    StoppedIsResumable(d);
    TwoStepsLink(state, result, files, "one", "source", 1, d, w);
    var e := ExecuteSpec(orc, "one", "source", TWO_STEPS, 1, 2, Mode.Resume, d, w);
    var files' := files["one" := Document(e.checkpoint)];
    TwoStepsLink(state, result, files', "two", "one", 0, d, w);
    TwoLinks(orc, files, "source", link, next, TWO_STEPS, 1, 0);
    RepeatsZero(Chain(orc, files, "source", [link, next]));
  }

  lemma TwoLinks(orc: Oracle, files: Files, source: string, link: Link, next: Link, rb: Runbook, start: nat,
                 start': nat)
    requires ResumePlan(files, source, link.draws) == Go(rb, start, |rb.steps|)
    requires var e := ExecutionOf(Go(rb, start, |rb.steps|), orc, source, link);
             ResumePlan(files[link.runId := Document(e.checkpoint)], link.runId, next.draws) ==
             Go(rb, start', |rb.steps|)
    ensures var reports := Chain(orc, files, source, [link, next]);
            && |reports| == 2
            && reports[0].done == Done(start, ExecutionOf(Go(rb, start, |rb.steps|), orc, source, link))
            && reports[1].done == Done(start', ExecutionOf(Go(rb, start', |rb.steps|), orc, link.runId, next))
  {
    hide ResumePlan, ExecuteSpec, Done;
    assert [link, next][1..] == [next] && [next][1..] == [];
  }

  lemma RepeatsZero(reports: seq<Report>)
    requires |reports| == 2 && reports[0].done == [] && reports[1].done == [0]
    ensures !Distinct(Range(0, 1) + AllDone(reports))
  {
    var rest := reports[1..];
    assert AllDone(rest) == rest[0].done + AllDone(rest[1..]) && AllDone(rest[1..]) == [];
    var log := Range(0, 1) + AllDone(reports);
    assert log[0] == log[1] == 0;
  }

  /** What one link of this chain does. */
  lemma TwoStepsLink(state: SessionState, result: ExecutionResult, files: Files, runId: string, source: string,
                     start: nat, d: Draws, w: World)
    requires Usable(d) && start < 2
    ensures TWO_STEPS.WellFormed()
    ensures var e := ExecuteSpec(FailsOnSecond(state, result), runId, source, TWO_STEPS, start, 2, Mode.Resume, d, w);
            && Done(start, e) == Range(start, 1)
            && ResumePlan(files[runId := Document(e.checkpoint)], runId, d) == Go(TWO_STEPS, 1 - start, 2)
  {
    hide ResumePlan, CheckpointOf, RunSpec;
    TwoStepsWellFormed();
    SecondNeverCompletes(state, result, start, w);
    LinkStep(FailsOnSecond(state, result), files, runId, source, TWO_STEPS, start, 2, d, w, d);
  }

  // ---- Replay ----------------------------------------------------------------------------------

  /** Replay ignores progress: whatever the source completed, it runs every step of the snapshot from 0
      and completes them all exactly when it succeeds. */
  lemma ReplayStartsOver(orc: Oracle, files: Files, runId: string, source: string, d: Draws, w: World)
    requires Usable(d) && ReplayPlan(files, source, d).Go?
    ensures var plan := ReplayPlan(files, source, d);
            var out := CarryOut(plan, orc, files, runId, source, Mode.Replay, d, w);
            var whole := RunSpec(orc, plan.rb, w);
            && plan.start == 0
            && out.response.Answered? && out.world == whole.world
            && out.response.result.stepsCompleted == whole.result.stepsCompleted
            && out.response.result.failedStepIndex == whole.result.failedStepIndex
            && (out.response.result.success <==> whole.result.stepsCompleted == |plan.rb.steps|)
  {
    hide LoadAndValidate, CheckpointOf, RunSpec;
    var plan := ReplayPlan(files, source, d);
    PlansAreWellFormed(files, source, d);
    assert Tail(plan.rb.steps, 0) == plan.rb.steps;
    PlainAccounting(orc, plan.rb, w);
  }
}
