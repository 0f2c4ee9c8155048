# Control-plane verification

A Dafny model of the I0³ control plane, kept beside the runtime it describes. It states, for all
inputs and all runs, what the runbook runners, checkpoints, dialogue sessions, engine runs, event
streams, metadata log and memory store promise, and proves it.

`dafny verify dfyconfig.toml` checks everything.

## How the model is built

The model call is an *oracle*: a function from a world and a task to a new world with a result, or
with an exception that may carry a failure envelope (`Oracles.dfy`). `World` is an abstract type, so
every theorem holds for every model, however it answers or fails. JSON documents, configuration
trees and metadata are values of one tree type with Python's rules for truth and for integers
(`Values.dfy`). Identifiers, timestamps and durations the code draws are arbitrary inputs.

Code that changes state is imperative here too: the runners' loops, the checkpoint, session and
memory stores, the dialogue session, the trace recorder, the engine log, the engine run with its
failure handler, the bus and the stream loop, the log rotation and the worklist traversal are
methods, with classes where the source has objects. Each is proved equal to a specification function
of its inputs and its old state, and the theorems are proved about those functions. The laws in
the `Answers` files, `LoaderLaws.dfy` and `RunbookLaws.dfy` tie what is reported to what the oracle and
the other externals said, and what is read to the names it is read from, in terms of their own.

| File | Models |
|---|---|
| `Runbooks.dfy`, `RunbookLaws.dfy` | task specifications, runbooks, conditions and their dictionary forms; how these are read |
| `Runner.dfy`, `RunnerLaws.dfy`, `RunnerAnswers.dfy` | the two runbook runners; composition, refinement, accounting, the event language; what they report of the oracle's answers |
| `ReplayResume.dfy`, `LoaderLaws.dfy`, `ResumeChains.dfy` | checkpoints, replay, resume; what the loader refuses; chains of resumes of any length |
| `Truncation.dfy`, `Sessions.dfy`, `SessionLaws.dfy`, `SessionAnswers.dfy` | dialogue sessions, the steward gate, the handlers; all reachable sessions; what sessions record of the oracle's answers |
| `ExecutionTraces.dfy`, `EngineLogs.dfy`, `Engine.dfy`, `EngineLaws.dfy`, `EngineAnswers.dfy` | one engine run with a failure possible at every external call and guard; what it answers of what it was told |
| `Orchestrator.dfy` | the run around the engine, and what the runbook layer sees of it |
| `EventBus.dfy` | the session event log and any number of streams reading it |
| `ContentSafety.dfy` | the content guard and the content strip |
| `MetadataLog.dfy` | the metadata log and its rotation, down to the characters of the file |
| `MemoryStore.dfy` | the versioned memory store |

## What the proofs show about the code

Where the code and its own documentation disagree, the model follows the code. Each promise below that
does not hold is given with the exact condition under which it does and with an input that breaks it.

- **Exactly once.** A resumed run that completes no step stores no last completed index, so the next
  resume starts at step 0 again. At-least-once always holds (`AtLeastOnce`); exactly-once holds exactly
  when no link that resumed past the beginning completed nothing before a later link completed something
  (`ExactlyOnceIff`). `StepCompletedTwice` is a chain of two links over two steps that breaks it.
- **Checkpoints can be resumed.** A stored checkpoint whose total_steps covers its last completed step
  loads exactly if the run completed or the failing step raised with an envelope (`CheckpointAccepted`).
  The orchestrator refuses a step that declares two capabilities before the engine runs, so such a step
  leaves a checkpoint nothing can resume (`TwoCapabilitiesAreRefused`, `BareFirstStepStrands`).
- **Every failure leaves the trace failed.** The capability's output is guarded after the trace is
  completed, so exactly that rejection leaves a completed trace (`TraceIsTerminal`);
  `RejectedOutputLeavesCompletedTrace` is such a run. The phase in the failure event is then the last one
  the run entered.
- **The metadata log drops records over 200 entries or 100 KB.** Rotation drops some exactly when there
  are more than 200 records, whatever their size (`RotationDropsIff`; `OversizeStays` is a log over the
  size limit that stays). The file holds more than 200 records exactly between an append past the
  limit and the next call with logging enabled (`ExceedsLimitIff`).
- **A memory write that fails raises MEMORY_WRITE_FAILED.** The confirmation and the read of the existing
  record stand outside the handler that adds this prefix: it is there unless the arguments are accepted
  and the confirmation raises, or is granted and the read fails (`FailuresCarryThePrefixIff`;
  `FailuresWithoutThePrefix` gives three writes).
- **A record's provenance is human, mixed or llm:slug.** One more form is accepted, a slug and one line
  feed (`ProvenanceIff`, `LineFeedIsAccepted`).
- **A memory record is found under its scope and key.** Scopes and keys become a path as they are, so
  slashes, "..", and absolute scopes are followed. What a key holds is always what its own stored writes
  left, exactly as long as its path never leads to a file that a write to another scope or key was the
  last to store (`AlwaysOwnIff`). For a path without ".." that is exactly as long as no stored write to
  another scope or key leads to its file (`PlainKeyIsOwnIff`), which slash-free names ensure
  (`SlashFreeStoreIsAMap`). Three pairs of writes break it: a slash that moves from the scope to the key
  (`MovedSlashTakesOver`), an absolute scope in the storage root (`AbsoluteScopeTakesOver`), and a ".."
  after a directory that is not there, whose lookup finds nothing, so that the version starts over
  (`ParentPartOverwrites`).

Four more facts that a reader of one function would not see:

- Both checks of the audit and revision limits are unreachable, and so is the orchestrator's check
  after the run (`AuditPhase`, `FinalStateIsValid`).
- Of the steward thresholds only the step count can fire in a session, because a turn passes no token
  count and no capabilities to the gate (`OnlyStepCountFires`).
- SESSION_AT_LIMIT is raised only in sessions created with an explicit limit below one
  (`LimitErrorIffNoTurns`); a configured limit never is (`ConfiguredLimitsAreKept`).
- Event streams stay faithful exactly as long as nobody clears a log that a live stream has read from
  (`StreamsAreFaithfulIff`, `ClearSkipsEvents`), and nothing in the runtime clears one. The content strip
  yields clean output exactly for trees with nothing unsafe inside tuples and sets (`StripIsCleanIff`,
  `StripMissesTuples`), and the API boundary strips JSON only (`StrippedOutputHasNoUnsafeKey`).

## Model

| member | source | states |
|---|---|---|
| RunnerLaws.RunStopsInFront | io_iii/core/runbook_runner.py:253-355 | if a step of a fails, running a ++ b leaves the outcomes, calls, world, counts and per-step events of running a alone |
| RunnerLaws.RunComposes | io_iii/core/runbook_runner.py:240-377 | otherwise running a ++ b is running a, then b from the world a left, with b's indices shifted by the length of a in outcomes, step events and the failed index |
| RunnerLaws.ConditionalRunStopsInFront | io_iii/core/runbook_runner.py:499-600 | if a step of a fails, the conditional run of a ++ b leaves what that of a alone leaves, skips included |
| RunnerLaws.ConditionalRunComposes | io_iii/core/runbook_runner.py:490-621 | otherwise it is the conditional run of a, then that of b from the world a left, with b's indices shifted and both skip counts added |
| RunnerLaws.ConditionalRefinesRun | io_iii/core/runbook_runner.py:499-621 | the conditional runner makes the calls, reaches the world and records the outcomes and step events of the plain runner on the steps whose condition holds, with indices mapped back through the filter |
| RunnerLaws.KeptSound | io_iii/core/runbook_runner.py:402-419 | the filter lists only steps whose condition holds, in ascending order, under their own indices |
| RunnerLaws.KeptComplete | io_iii/core/runbook_runner.py:402-419 | the filter lists every step whose condition holds |
| RunnerLaws.UnconditionalIsRun | io_iii/core/runbook_runner.py:422-621 | without conditions the two runners return the same result, events included |
| RunnerLaws.Accounting | io_iii/core/runbook_runner.py:490-621 | completed + skipped + (1 if terminated early) is the failed index + 1 on failure and the number of steps on success; there is one oracle call per outcome |
| RunnerLaws.OutcomesFollowTheRunbook | io_iii/core/runbook_runner.py:499-600 | each outcome belongs to one call for a step whose condition holds, in ascending order, and only the last can have failed |
| RunnerLaws.PlainAccounting | io_iii/core/runbook_runner.py:245-377 | in a plain run outcome k is step k, and the outcome at the failed index is the failing step that resume looks up |
| RunnerLaws.LogIsLifecycleWord | io_iii/core/runbook_runner.py:490-621 | the event log of every conditional run is a complete word of the lifecycle language, ending completed or terminated as the result says |
| RunnerLaws.PlainLogIsLifecycleWord | io_iii/core/runbook_runner.py:240-377 | so is the event log of every plain run |
| RunnerAnswers.RunThreadsWorlds | io_iii/core/runbook_runner.py:253-355 | a plain run makes its calls one after the other, each in the world the one before it left, and ends in the last; outcome k holds exactly what call k returned or raised |
| RunnerAnswers.ConditionalRunThreadsWorlds | io_iii/core/runbook_runner.py:499-600 | the same for a conditional run |
| RunnerAnswers.LogTellsOutcomes | io_iii/core/runbook_runner.py:499-621 | the events of executed steps carry what their calls returned or raised, each skipped step is one whose condition does not hold, and a failing run ends with its failing step's classification |
| RunnerAnswers.ConditionMeaning | io_iii/core/runbook_runner.py:402-419 | eq holds where the named context field equals the value, neq elsewhere |
| Runner.Run | io_iii/core/runbook_runner.py:240-377 | the runner's loop returns what executing the steps in order up to the first failure leaves |
| Runner.RunWithContext | io_iii/core/runbook_runner.py:490-621 | the same for the conditional runner, skipped steps leaving only a mark in the log |
| ReplayResume.CheckpointStore.WriteCheckpoint | io_iii/core/replay_resume.py:166-200 | exactly one file is replaced, by the document with the failure fields present only on a failed run |
| ReplayResume.CheckpointStore.Execute | io_iii/core/replay_resume.py:240-377 | the slice is run, slice-relative indices are reported and stored absolute, and one checkpoint is written |
| ReplayResume.CheckpointStore.Replay | io_iii/core/replay_resume.py:384-440 | a refused source changes nothing; otherwise the whole snapshot is run under the new run id |
| ReplayResume.CheckpointStore.Resume | io_iii/core/replay_resume.py:443-515 | the same from one past the stored last completed index, or 0 if there is none; completed runs are refused |
| LoaderLaws.LoadedIff | io_iii/core/replay_resume.py:79-141 | from any files: a checkpoint is loaded if and only if it is there, readable, of the current schema, of this very run, of its own snapshot, and states its progress and its failure in full |
| LoaderLaws.RefusalCodes | io_iii/core/replay_resume.py:79-95 | only a missing file is CHECKPOINT_NOT_FOUND; every other refusal is CHECKPOINT_INTEGRITY_ERROR |
| LoaderLaws.ForeignRunIsRefused | io_iii/core/replay_resume.py:97-112 | a document that records another run is never accepted |
| LoaderLaws.OtherSchemaIsRefused | io_iii/core/replay_resume.py:97-112 | nor one of another schema version |
| LoaderLaws.ForeignSnapshotIsRefused | io_iii/core/replay_resume.py:106-141 | nor one whose runbook id is unlike its snapshot's |
| LoaderLaws.LastWithoutProgressIsRefused | io_iii/core/replay_resume.py:118-129 | nor one with a last completed step but no progress |
| LoaderLaws.ProgressWithoutLastIsRefused | io_iii/core/replay_resume.py:118-129 | nor one with progress and no last completed step within its total |
| LoaderLaws.UnexplainedRecordIsRefused | io_iii/core/replay_resume.py:130-141 | nor a failed one without its kind, code or step |
| LoaderLaws.RefusedSourceChangesNothing | io_iii/core/replay_resume.py:384-515 | replaying or resuming a refused source answers with the loader's code, makes no call and changes no file |
| LoaderLaws.CompletedIsNotResumed | io_iii/core/replay_resume.py:443-493 | so does resuming a completed run |
| LoaderLaws.AcceptedIsTakenUp | io_iii/core/replay_resume.py:493-515 | any other accepted source is resumed one past its last completed step and replayed from 0, with its snapshot and its total |
| LoaderLaws.ExecutionAnswers | io_iii/core/replay_resume.py:303-377 | the answer and the stored document name the run, its source, its runbook and its total |
| LoaderLaws.FailureIsAnswered | io_iii/core/replay_resume.py:303-342 | a failing execution answers and stores the failure of its last call under the absolute index, with the progress in front of it |
| ResumeChains.LoaderVerdict | io_iii/core/replay_resume.py:79-141 | a stored record is accepted under its own id exactly if its progress stays below total_steps and a failure names its kind, code and step |
| ResumeChains.CheckpointAccepted | io_iii/core/replay_resume.py:79-141 | a checkpoint that an execution writes is accepted under its own id if and only if the run completed or the failing exception carried an envelope, as long as total_steps covers the last completed index, which equality with the snapshot length ensures |
| ResumeChains.UnexplainedFailureIsUnreadable | io_iii/core/replay_resume.py:303-342 | a slice whose first step raises without an envelope leaves a checkpoint that cannot be resumed |
| ResumeChains.SliceReportsAbsoluteIndices | io_iii/core/replay_resume.py:263-313 | running the rest from where the front left off reports the failed index of the full run, and its last completed index whenever the slice completes a step |
| ResumeChains.LinkStep | io_iii/core/replay_resume.py:493-515 | whatever total_steps its source states, one link completes a contiguous range from its start, and decides exactly where the next link starts or that it is refused |
| ResumeChains.RefusalIsFinal | io_iii/core/replay_resume.py:443-515 | once a link cannot start, no later link starts |
| ResumeChains.EachLinkCompletesARange | io_iii/core/replay_resume.py:240-377 | in a chain of any length, from any accepted source, every link runs the same runbook with the same total and completes a contiguous ascending range |
| ResumeChains.AtLeastOnce | io_iii/core/replay_resume.py:240-377 | if the last link of a chain succeeds, every step was completed by the source or by some link |
| ResumeChains.ExactlyOnceIff | io_iii/core/replay_resume.py:303-308 | no step is completed twice if and only if no link that resumed past the beginning completed nothing before a later link completed something |
| ResumeChains.StepCompletedTwice | io_iii/core/replay_resume.py:303-308 | a chain of two links, the first completing nothing, in which step 0 is completed twice |
| ResumeChains.ReplayStartsOver | io_iii/core/replay_resume.py:384-440 | replay ignores the stored progress and succeeds exactly when it completes every step of the snapshot |
| Runbooks.StripSplits | io_iii/core/task_spec.py:8-11 | stripping removes white space at both ends and nothing else |
| Runbooks.EnsureStringList | io_iii/core/task_spec.py:14-24 | the loop returns all items stripped, or rejects the list if one is not a non-blank string |
| Runbooks.CreateIsWellFormed | io_iii/core/task_spec.py:55-71 | a built specification has a non-empty id and stripped, non-empty mode, prompt and capabilities |
| Runbooks.TaskSpecRoundTrip | io_iii/core/task_spec.py:77-96 | a specification survives its dictionary form exactly if it is one that create can build |
| Runbooks.RunbookRoundTrip | io_iii/core/runbook.py:48-121 | the same for runbooks, with their length limits |
| Runbooks.FromDictIsWellFormed | io_iii/core/runbook.py:99-121 | whatever a document holds, a runbook read from it is one that create can build |
| Runbooks.StepRoundTrip | io_iii/core/runbook.py:170-275 | a step with an optional condition survives its dictionary form exactly if it is well formed |
| Runbooks.ConditionalRunbookRoundTrip | io_iii/core/runbook.py:298-364 | the same for conditional runbooks |
| RunbookLaws.SpecIsReadIff | io_iii/core/task_spec.py:77-88 | what a specification must hold, under which names, and what is read from each |
| RunbookLaws.RunbookIsReadIff | io_iii/core/runbook.py:99-121 | one to twenty readable steps, each read as its own |
| RunbookLaws.ConditionalIsReadIff | io_iii/core/runbook.py:345-364 | the same for a conditional runbook |
| RunbookLaws.StepIsReadIff | io_iii/core/runbook.py:265-275 | a readable specification and a readable condition or none |
| RunbookLaws.ConditionIsReadIff | io_iii/core/runbook.py:170-215 | one of the two context fields, a text, and eq, neq or by default eq |
| SessionAnswers.ActionIsAnswered | io_iii/api/_handlers.py:271-344 | a successful turn is what the oracle returned for the task it names and is recorded with its request id, status and error code; one that raises records nothing; every other answer comes without a call |
| SessionAnswers.TurnsAreTheAnsweredOnes | io_iii/core/dialogue_session.py:342-366 | over any actions turn_count is the number of successful turn responses, and the turns are their records in order |
| SessionAnswers.GateFires | io_iii/core/dialogue_session.py:363-380 | from any reachable steward session, k successful turns without a release leave it paused, at its limit or closed |
| SessionAnswers.ActiveSessionsTurn | io_iii/api/_handlers.py:294-337 | nothing keeps a turn from the oracle that is typed to an active or released session with turns left |
| SessionAnswers.InactiveSessions | io_iii/api/_handlers.py:294-317 | what closes, approvals, redirects, other actions and missing prompts do, and that no closed or full session turns |
| SessionAnswers.ReleasesIff | io_iii/api/_handlers.py:296-300 | approvals and redirects of paused sessions release them |
| SessionLaws.HumanReleasesEveryKTurns | io_iii/core/session_mode.py:285-287 | in steward mode with step count k every reachable active session has been released turn_count / k times, a paused one stands at k * (releases + 1), and none is ever past it |
| SessionLaws.UngatedNeverPauses | io_iii/core/session_mode.py:370-417 | in work mode, or without a step count, no run of actions pauses a session |
| SessionLaws.ApplyKeepsCounted | io_iii/api/_handlers.py:271-344 | every request appends at most one turn, keeps the counts, and leaves the session as it was if it does not store it |
| SessionLaws.ReachableSessionsAreCounted | io_iii/core/dialogue_session.py:283-380 | every reachable session has turn_count = len(turns) <= max_turns, turns numbered in order, and turns left while active or paused |
| SessionLaws.LimitErrorIffNoTurns | io_iii/core/dialogue_session.py:283-292 | the SESSION_AT_LIMIT raise is reachable if and only if max_turns is below one |
| SessionLaws.ConfiguredLimitsAreKept | io_iii/core/dialogue_session.py:526-535 | a limit loaded from the configuration is positive, so such sessions are counted and never refused with SESSION_AT_LIMIT |
| SessionLaws.ClosedIsAbsorbing | io_iii/api/_handlers.py:422-435 | a closed session stays closed with the turns it had |
| SessionLaws.StoredSessionFollows | io_iii/core/dialogue_session.py:396-476 | for every loadable session, saving and loading around every action changes nothing, and other sessions' files are untouched |
| SessionAnswers.SessionIsReadFrom | io_iii/core/dialogue_session.py:538-595 | which field of a loaded session is read from which name |
| SessionAnswers.StoredNames | io_iii/core/dialogue_session.py:418-439 | the names under which a session is stored |
| SessionAnswers.StoredTurnNames | io_iii/core/dialogue_session.py:424-436 | the names under which a turn is stored |
| SessionAnswers.MaxTurnsIsLoaded | io_iii/core/dialogue_session.py:526-535 | the limit is the configured positive integer, or fifty |
| SessionAnswers.DeclaredThresholdsAreLoaded | io_iii/core/session_mode.py:71-136 | each declared threshold is what is loaded, and exactly the invalid ones are rejected |
| SessionAnswers.ThresholdFires | io_iii/core/session_mode.py:254-297 | each threshold fires on its own quantity, the first declared one first |
| Sessions.SaveLoad | io_iii/core/dialogue_session.py:418-439 | reading back what was saved gives the same session |
| Sessions.DeserialiseSession | io_iii/core/dialogue_session.py:538-595 | the loop over the turns yields all of them in order or the first turn's fault |
| Sessions.LoadedThresholdsAreSound | io_iii/core/session_mode.py:71-136 | whatever loads has a positive step count and token budget, if any |
| Sessions.OnlyStepCountFires | io_iii/core/dialogue_session.py:363-380 | the gate as a turn calls it fires exactly in steward mode at multiples of the step count |
| Sessions.DialogueSession.RunTurn | io_iii/core/dialogue_session.py:283-380 | the turn's whole new session, world and result: refusals in order, one record appended, paused by the gate, overridden by the limit |
| Sessions.StewardGate.UpdateMode | io_iii/core/session_mode.py:347-368 | the requested mode takes effect and the event reports both modes, the user's action and the step |
| Sessions.SessionStore.HandleSessionTurn | io_iii/api/_handlers.py:271-344 | approvals, redirects, closes and turns on the stored session, stored exactly when the handler stores it |
| Sessions.SessionStore.ExecuteSessionTurn | io_iii/api/_handlers.py:441-490 | the same for a direct turn |
| Sessions.SessionStore.CloseSession | io_iii/api/_handlers.py:373-386 | closes any loadable session and stores it |
| Sessions.SessionStore.DoClose | io_iii/cli/_session_shell.py:426-442 | sets closed and the time, and stores exactly that |
| Sessions.SessionStore.Load | io_iii/core/dialogue_session.py:453-476 | a fresh session equal to the stored one, or the loader's fault |
| Truncation.Truncate | io_iii/core/dialogue_session.py:310-325 | the loop over the marks returns the kept text |
| Truncation.TruncatedMeaning | io_iii/core/dialogue_session.py:310-325 | for a file longer than budget >= 1 the kept text is a prefix, more than half and at most the budget, ending at the last second-half occurrence of the first mark that has one, or filling the budget |
| EngineAnswers.CallsAreFed | io_iii/core/engine.py:427-690 | every external call of a run is given exactly what the request and the answers to the calls before it say: the challenger the model's trimmed answer, a revision that answer and the challenger's feedback, which asks for work |
| EngineAnswers.MessageIsLastAnswer | io_iii/core/engine.py:512-811 | the message of a returning run is the answer to its last call for text, trimmed from a model; a draft is the message exactly if nobody audits it or its audit asks for no work |
| EngineAnswers.ReturnsIff | io_iii/core/engine.py:411-775 | a run returns if and only if every check passes and every call is answered, condition by condition |
| EngineAnswers.CallsOfAReturn | io_iii/core/engine.py:427-690 | a returning run has made every call its request asks for |
| EngineAnswers.ParseTargetIff | io_iii/routing.py:25-34 | the model of a target is what follows its first colon, trimmed, if neither side is blank |
| EngineAnswers.ReturnedResult | io_iii/core/engine.py:552-561 | provider, model, route, audit and prompt hash of the answer |
| EngineAnswers.ReportedAudit | io_iii/core/engine.py:643-690 | the reported verdict is the challenger's, and a revision is reported exactly if one was generated |
| EngineAnswers.AttachedCapability | io_iii/core/engine.py:276-292 | the capability's result is attached exactly if one was asked for, with what it returned |
| EngineAnswers.ReturnedState | io_iii/core/engine.py:738-760 | the initial state with the run's outcome and latency, and nothing else changed |
| EngineAnswers.StateReportsTheAudit | io_iii/core/engine.py:740-750 | the state and the answer report one audit |
| EngineAnswers.ReturnedTrace | io_iii/core/engine.py:692-708 | the returned trace is completed, belongs to the run and holds a timed step for every call |
| EngineAnswers.ReturnedTimings | io_iii/core/execution_trace.py:78-83 | the returned trace times every stage by its one step |
| EngineAnswers.CapabilityStepReports | io_iii/core/engine.py:440-462 | the capability's step says whether it succeeded and with which code it failed |
| EngineAnswers.EventsCarryTheRun | io_iii/core/engine.py:413-737 | every event carries the run's identifiers and describes the run |
| EngineAnswers.PhaseAtFailure | io_iii/core/engine.py:427-690 | a failure is classified under the phase of its point, that of the output guard under the phase the run was in |
| EngineAnswers.FailureIsReported | io_iii/core/engine.py:775-811 | the classification is in the last event and, if the exception takes attributes, on the exception |
| Engine.Run | io_iii/core/engine.py:399-811 | reply, trace, events and calls of the run with its failure handler, for every way the outside can answer |
| Engine.CapabilityPhase | io_iii/core/engine.py:427-462 | dependency check, payload check and one capability call, its step recorded even when it raises |
| Engine.NullPath | io_iii/core/engine.py:512-561 | the null path from its provider call to its result |
| Engine.AssemblyPhase | io_iii/core/engine.py:564-606 | target, factory, assembly and context limit, each of which can raise |
| Engine.InferencePhase | io_iii/core/engine.py:564-639 | the same up to the first generation, which can raise as well |
| Engine.ChallengerPass | io_iii/core/engine.py:295-323 | one recorded challenge; the verdict reaches the log unless the answer is not a mapping or the verdict offends the guard |
| Engine.Revise | io_iii/core/engine.py:326-366 | one recorded generation from draft and feedback, none if the feedback does not serialise |
| Engine.AuditPhase | io_iii/core/engine.py:643-690 | at most one audit and one revision; the two limit checks never fire |
| Engine.Finish | io_iii/core/engine.py:692-738 | the trace passes its guard always, and the last two events go out exactly if the capability's output is clean |
| EngineLaws.EventsAreOneWord | io_iii/core/engine.py:413-811 | a returning run logs exactly its event word; a raising one logs a beginning of it and then exactly one failure event; at most 8 events, so the 16-event cap is never reached |
| EngineLaws.RaisesAtFirstFailure | io_iii/core/engine.py:411-775 | a run returns if and only if no point on its path fails, and otherwise raises at the first that does |
| EngineLaws.TraceIsTerminal | io_iii/core/engine.py:775-779 | the trace ends completed or failed; it is completed on a raise if and only if the capability's output is all that was rejected |
| EngineLaws.RejectedOutputLeavesCompletedTrace | io_iii/core/engine.py:534-540 | a run that raises with a completed trace: its capability returns an output with a forbidden key |
| EngineLaws.StepsFollowThePath | io_iii/core/engine.py:571-690 | recorded stages and external calls match one to one and are a beginning of the path, all of it on return |
| EngineLaws.AuditIsBounded | io_iii/core/engine.py:643-750 | no run generates more than twice or asks the challenger more than once; a returning ollama run reports revision_passes <= audit_passes <= 1, revised exactly if the verdict is needs_work, and 1 + revision_passes generations |
| ExecutionTraces.TransitionTable | io_iii/core/execution_trace.py:28-33 | the four transitions there are |
| ExecutionTraces.TraceRecorder.Transition | io_iii/core/execution_trace.py:138-145 | the status changes exactly along the table |
| ExecutionTraces.TraceRecorder.BeginStep | io_iii/core/execution_trace.py:180-196 | the first step starts the trace, a terminal trace takes none |
| ExecutionTraces.StageTimings | io_iii/core/execution_trace.py:78-83 | exactly the stages seen, each with its total duration, summing to the sum of all durations |
| ExecutionTraces.TraceDictClean | io_iii/core/execution_trace.py:85-101 | a serialised trace passes the content guard exactly if its stage names and step metadata do |
| EngineLogs.EngineObservabilityLog.Emit | io_iii/core/engine_observability.py:110-140 | an event is appended exactly if there is room and its metadata is clean |
| Orchestrator.Orchestrate | io_iii/core/orchestrator.py:65-133 | refused before the engine, or exactly the engine's reply; never stopped by the check after it |
| Orchestrator.PreflightIff | io_iii/core/orchestrator.py:65-113 | the engine is called exactly for at most one capability, an identifier that is not blank and a resolved route with a provider |
| Orchestrator.EngineIsAskedForTheTask | io_iii/core/orchestrator.py:96-128 | the engine gets the task's prompt, capability and identifier, the resolved route and the caller's audit |
| Orchestrator.DeclaredCapabilityIsInvoked | io_iii/core/orchestrator.py:115-128 | a declared capability is the first call of a returning run, with its payload |
| Orchestrator.FinalStateIsValid | io_iii/core/session_state.py:152-212 | a run from a valid state returns a valid state, whatever the outside answers |
| Orchestrator.RaisesBareIff | io_iii/core/orchestrator.py:66-79 | an orchestrated step raises without an envelope exactly if it is refused before the engine or its exception takes no attributes |
| Orchestrator.StepOracleAnswers | io_iii/core/runbook_runner.py:268-330 | the runbook layer sees the engine's state and result, or its envelope, or neither if the engine was never called |
| Orchestrator.VouchedRunsLeaveLoadableCheckpoints | io_iii/core/replay_resume.py:318-342 | if no step can raise without an envelope, every checkpoint of a run can be loaded |
| Orchestrator.BareFirstStepStrands | io_iii/core/replay_resume.py:118-141 | if the first step of a slice raises without an envelope, its checkpoint cannot be resumed |
| Orchestrator.TwoCapabilitiesAreRefused | io_iii/core/orchestrator.py:75-79 | a step that declares two capabilities is such a step |
| EventBus.StreamsAreFaithfulIff | io_iii/api/_bus.py:35-65 | under any interleaving of publishers, clears and streams, in every state every live stream has sent exactly the log up to its cursor and every ended one the log it ended at, before the first sentinel, with one keepalive per thirty consecutive empty polls, if and only if no clear meets a live stream that has read from its log |
| EventBus.StreamsAreFaithful | io_iii/api/app.py:448-476 | without clears every stream is faithful in this sense |
| EventBus.ClearKeepsIff | io_iii/api/_bus.py:53-56 | clearing the log keeps one stream faithful exactly if it has ended or read nothing |
| EventBus.SnapshotComesFirst | io_iii/api/app.py:452-459 | every stream begins with the snapshot it was connected with, sent once, and reads the session it was connected to |
| EventBus.PollCatchesUp | io_iii/api/app.py:461-472 | after one poll a live stream has sent the whole log, or has ended at its first sentinel |
| EventBus.Generator.Poll | io_iii/api/app.py:461-476 | one pass of the loop is a fetch followed by deliveries until the batch is used up or the stream ends |
| EventBus.ClearSkipsEvents | io_iii/api/_bus.py:53-56 | a run with a clear after which a stream skips the event published next |
| EventBus.Bus.Publish | io_iii/api/_bus.py:35-43 | one event is appended to one session's log |
| EventBus.Bus.GetEventsSince | io_iii/api/_bus.py:46-50 | everything from the cursor on, nothing past the end |
| EventBus.Bus.Clear | io_iii/api/_bus.py:53-56 | one session's log is removed |
| EventBus.Bus.CloseStream | io_iii/api/_bus.py:63-65 | the sentinel is published |
| ContentSafety.AssertNoForbiddenKeys | io_iii/core/content_safety.py:26-51 | the worklist traversal terminates and returns if and only if no forbidden string key occurs at any depth |
| ContentSafety.CleanIffNoForbiddenKey | io_iii/core/content_safety.py:26-51 | the recursive reading and the reading by paths agree |
| ContentSafety.StrippedOutputHasNoUnsafeKey | io_iii/api/app.py:620-645 | a stripped JSON tree passes the recursive check for the unsafe keys |
| ContentSafety.StripIsCleanIff | io_iii/api/app.py:629-645 | stripped output passes the recursive check if and only if nothing unsafe sits where the strip does not look |
| ContentSafety.StripIdempotent | io_iii/api/app.py:629-645 | stripping twice is stripping once |
| ContentSafety.StripKeepsSafePaths | io_iii/api/app.py:629-645 | exactly the paths without an unsafe key survive, with the stripped value at their end |
| ContentSafety.StripMissesTuples | io_iii/api/app.py:629-645 | a tuple hides an unsafe key from the strip |
| MetadataLog.OutcomeIff | io_iii/metadata_logging.py:65-102 | an enabled call is refused if and only if a forbidden key occurs at some path of its record, and otherwise writes what json.dumps makes of the payload |
| MetadataLog.EveryLineIsClean | io_iii/metadata_logging.py:82-102 | over any calls from no file, every line of the log is the dump of a value without any forbidden key that holds all entries of some call's record |
| MetadataLog.PayloadHolds | io_iii/metadata_logging.py:84-94 | the payload is the record with the four default fields it lacks |
| MetadataLog.LogHoldsTheLastRecords | io_iii/metadata_logging.py:48-102 | from no file, after any calls the log holds the last accepted records in order: at most 201 right after an accepted call, at most 200 after a refused one |
| MetadataLog.ExceedsLimitIff | io_iii/metadata_logging.py:44-62 | the log holds more than 200 records exactly if more were accepted and no call was refused since the last |
| MetadataLog.RefusalDropsAtMostTheOldest | io_iii/metadata_logging.py:82-97 | a refused call can only drop the oldest record of a log of 201 |
| MetadataLog.RotationKeepsLast | io_iii/metadata_logging.py:44-62 | rotation keeps the last 200 records whatever the size of the file |
| MetadataLog.RotationDropsIff | io_iii/metadata_logging.py:44-62 | rotation drops a record if and only if there are more than 200, and leaves more than 100 KB if and only if the last 200 exceed it |
| MetadataLog.OversizeStays | io_iii/metadata_logging.py:51-62 | one record over the size limit is left as it is |
| MetadataLog.LinesAreWhole | io_iii/metadata_logging.py:55-57 | lines hold no line break of either kind |
| MetadataLog.BlanksAreDropped | io_iii/metadata_logging.py:55-57 | exactly the lines with something besides white space are kept |
| MetadataLog.LinesOfJoined | io_iii/metadata_logging.py:55-62 | splitting a file of one-line records gives back the records |
| MetadataLog.Log.RotateIfNeeded | io_iii/metadata_logging.py:48-62 | the file after rotation, by size and by count |
| MetadataLog.Log.Append | io_iii/metadata_logging.py:65-102 | the outcome and the file after every kind of call: disabled, refused, not serialisable, written |
| MemoryStore.AlwaysOwnIff | io_iii/memory/write.py:65-112 | over any sequence of writes, in every state one key's record is what its stored writes leave (version their number, created_at the first one's, value the last one's) if and only if in no state the key's path leads to a file that a write to another scope or key stored last |
| MemoryStore.PlainKeyIsOwnIff | io_iii/memory/store.py:162-163 | for a path without "..", if and only if no stored write to another scope or key leads to its file |
| MemoryStore.SlashFreeStoreIsAMap | io_iii/memory/write.py:65-112 | with slash-free scopes and keys it always is, so denied and invalid writes and writes to other keys change nothing; the one exception are the scopes "." and ".." of a storage root at the top of the file system |
| MemoryStore.MovedSlashTakesOver | io_iii/memory/store.py:162-163 | two writes whose slash stands in the scope or in the key: the second counts the first one's version on |
| MemoryStore.AbsoluteScopeTakesOver | io_iii/memory/store.py:162-163 | the same with an absolute scope that lies in the storage root |
| MemoryStore.ParentPartOverwrites | io_iii/memory/store.py:176-198 | a write through ".." after a missing directory finds no record, makes the directory and replaces another key's record at version 1 |
| MemoryStore.WriteSucceedsIff | io_iii/memory/write.py:65-112 | from any store, a write is stored if and only if its arguments, the confirmation and the file system allow it and the existing record can be read; otherwise all files stay as they were |
| MemoryStore.FailuresCarryThePrefixIff | io_iii/memory/write.py:65-112 | a failure carries MEMORY_WRITE_FAILED unless the arguments are accepted and the confirmation raises, or is granted and the existing record cannot be read |
| MemoryStore.FailuresWithoutThePrefix | io_iii/memory/write.py:79-86 | three writes that fail without it |
| MemoryStore.WriteIsLocal | io_iii/memory/store.py:187-198 | a write changes the file its path leads to, if it succeeds, and no other; it only adds directories |
| MemoryStore.ProvenanceIff | io_iii/memory/store.py:43-57 | the accepted provenances are the documented ones and a slug with one line feed |
| MemoryStore.LineFeedIsAccepted | io_iii/memory/store.py:43-57 | such a provenance |
| MemoryStore.SlashFreeFilesDiffer | io_iii/memory/store.py:162-163 | slash-free scopes and keys lead to one file exactly if both are equal, or the root is the top of the file system and the scopes are "." and ".." |
| MemoryStore.PlainIsWalkable | io_iii/memory/store.py:176-185 | a path without ".." leads to its file as soon as any path leads there |
| MemoryStore.SlashesCollide | io_iii/memory/store.py:162-163 | a slash that moves from the key to the scope leads to the same file |
| MemoryStore.GetFinds | io_iii/memory/store.py:176-185 | a lookup finds nothing where its path leads to no file, a valid readable record, or raises |
| MemoryStore.RecordsKeepTheOrder | io_iii/memory/store.py:215-227 | listed records stand in the order of their keys, and there are no others |
| MemoryStore.Store.Put | io_iii/memory/store.py:187-198 | the directories on the path are made, then one file is replaced; a failed call leaves at most directories |
| MemoryStore.Store.MemoryWrite | io_iii/memory/write.py:65-112 | outcome and new store of every write, the exceptions of the confirmation and the reader included |
| MemoryStore.Store.ListByKeys | io_iii/memory/store.py:215-227 | the records there are, in the order of the keys, or the reader's exception if one does not deserialise |

## Left out

- HTTP calls to the model, cloud providers, webhooks, capability timeouts and server plumbing: foreign calls, present only as oracles and external answers that may fail.
- Durations, UUIDs, request ids and timestamps: arbitrary inputs.
- The temporary file and rename behind each stored file: a file is replaced as a whole. Several processes writing one session file are not modelled; the code takes no lock there.
- JSON text, hashing and the framing of server-sent events: payloads are trees, and the metadata log takes `json.dumps` as a function that yields one non-blank line.
- Routing, portability and constellation checks, and the classification of exceptions: the route and the failure kind and code are given values.
- The default challenger's prompt and its recovery from unparsable output: the challenger is an external call that may raise or return any value.
- Telemetry counters and persona or attachment text in the engine's result: they do not influence what is proved.
- Exceptions that do not derive from `Exception`, such as an interrupt: the engine's handler does not see them either.
- Runbook.create: the type checks and the copying loop over the steps are carried by Dafny's types.
- Values.PyEqual: numbers compare across types at the top level only; inside lists and dictionaries equality is structural.
- ReplayResume.CheckpointStore.Replay: boolean total_steps, which Python accepts as an integer, is written back as an integer.
- ReplayResume.CheckpointStore.Resume: boolean progress fields, which Python accepts as integers, are written back as integers.
- Sessions.DeserialiseSession: rejects scalar fields of the wrong type, which the source stores unchecked in the session object.
- Sessions.SessionStore.Load: the same.
- Sessions.SessionStore.HandleSessionTurn: HTTP status and exit codes are not modelled; `cmd_session_continue` makes the same transitions and shares this member.
- Orchestrator.Orchestrate: the type checks on its arguments are carried by Dafny's types.
- MemoryStore.Store.MemoryWrite: symbolic links, case folding, name limits and drive letters of file systems are not modelled.
- MetadataLog.Log.Append: assumes the line ending of the file is a single line feed.
- Live configuration changes: thresholds and turn limits are fixed for a session's whole run.
- The portal's content release, YAML loading, command-line parsing, the web UI, file extraction, the demo schema validator and the builtin capabilities: no property beyond their own bodies.
