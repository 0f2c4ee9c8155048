/** The dialogue session, its steward gate and its request handlers
    (io_iii/core/dialogue_session.py, io_iii/core/session_mode.py, io_iii/api/_handlers.py,
    io_iii/cli/_session_shell.py). */
module Sessions {
  import opened Values
  import opened SessionStates
  import opened Runbooks
  import opened Oracles
  import Truncation

  // ---- The steward gate ------------------------------------------------------------

  datatype Thresholds = Thresholds(stepCount: Option<int>, tokenBudget: Option<int>, capabilityClasses: seq<string>)

  /** `load_steward_thresholds`. */
  function LoadStewardThresholds(config: Value): Result<Thresholds>
    requires config.Dict?
  {
    var raw := config.Get("steward_thresholds");
    if !raw.Truthy() then Ok(Thresholds(None, None, []))
    else if !raw.Dict? then Err(ValueError)
    else match (PositiveInt(raw, "step_count"), PositiveInt(raw, "token_budget"), ClassList(raw))
      case (Ok(sc), Ok(tb), Ok(cc)) => Ok(Thresholds(sc, tb, cc))
      case _ => Err(ValueError)
  }

  function PositiveInt(raw: Value, name: string): Result<Option<int>>
    requires raw.Dict?
  {
    if !raw.Has(name) then Ok(None)
    else if !raw.Get(name).IsInt() || raw.Get(name).AsInt() <= 0 then Err(ValueError)
    else Ok(Some(raw.Get(name).AsInt()))
  }

  function ClassList(raw: Value): Result<seq<string>>
    requires raw.Dict?
  {
    if !raw.Has("capability_classes") then Ok([])
    else
      var cc := raw.Get("capability_classes");
      if !cc.List? || exists i | 0 <= i < |cc.items| :: !cc.items[i].Str? || Strip(cc.items[i].text) == ""
      then Err(ValueError)
      else Ok(seq(|cc.items|, i requires 0 <= i < |cc.items| => cc.items[i].text))
  }

  /** What loading guarantees and the gate relies on. */
  predicate Sound(t: Thresholds) {
    (t.stepCount.Some? ==> t.stepCount.value > 0) && (t.tokenBudget.Some? ==> t.tokenBudget.value > 0)
  }

  lemma LoadedThresholdsAreSound(config: Value)
    requires config.Dict?
    ensures LoadStewardThresholds(config).Ok? ==> Sound(LoadStewardThresholds(config).value)
  {
  }

  /** `evaluate_thresholds`: the first threshold that fires. */
  function EvaluateThresholds(t: Thresholds, stepIndex: int, tokens: int, invoked: seq<string>): Option<string>
    requires Sound(t)
  {
    if t.stepCount.Some? && (stepIndex + 1) % t.stepCount.value == 0 then Some("step_count")
    else if t.tokenBudget.Some? && tokens > t.tokenBudget.value then Some("token_budget")
    else if exists i | 0 <= i < |invoked| :: invoked[i] in t.capabilityClasses then Some("capability_classes")
    else None
  }

  datatype PauseState = PauseState(thresholdKey: string, stepIndex: int, stepsTotal: int, sessionMode: SessionMode,
                                   runId: string)

  /** `StewardGate.check`. */
  function Check(mode: SessionMode, t: Thresholds, stepIndex: int, stepsTotal: int, runId: string,
                 tokens: int, invoked: seq<string>): Option<PauseState>
    requires Sound(t)
  {
    if mode != Steward then None
    else match EvaluateThresholds(t, stepIndex, tokens, invoked)
      case None => None
      case Some(key) => Some(PauseState(key, stepIndex, stepsTotal, mode, runId))
  }

  /** A turn tells the gate its index, the total and the run id only, so of all declared thresholds
      the step count alone can fire. */
  lemma OnlyStepCountFires(mode: SessionMode, t: Thresholds, stepIndex: int, stepsTotal: int, runId: string)
    requires Sound(t)
    ensures Check(mode, t, stepIndex, stepsTotal, runId, 0, []) ==
            if mode == Steward && t.stepCount.Some? && (stepIndex + 1) % t.stepCount.value == 0
            then Some(PauseState("step_count", stepIndex, stepsTotal, mode, runId))
            else None
  {
  }

  // ---- The session -------------------------------------------------------------------

  datatype Status = Active | Paused | Closed | AtLimit

  datatype TurnRecord = TurnRecord(
    turnIndex: int,
    runId: string,
    status: string,
    personaMode: string,
    latencyMs: Option<int>,
    errorCode: Option<string>,
    memoryKeysLoaded: int)

  /** A session's contents as a value. */
  datatype Session = Session(
    sessionId: string,
    sessionMode: SessionMode,
    turnCount: int,
    maxTurns: int,
    status: Status,
    turns: seq<TurnRecord>,
    createdAt: string,
    updatedAt: string)
  {
    predicate IsAtLimit() {
      turnCount >= maxTurns
    }
  }

  const SESSION_MAX_TURNS := 50

  function NewSession(id: string, mode: SessionMode, maxTurns: int, now: string): Session {
    Session(id, mode, 0, maxTurns, Active, [], now, now)
  }

  /** `_load_max_turns`. */
  function LoadMaxTurns(config: Value): Result<int>
    requires config.Dict?
  {
    var raw := config.Get("session_max_turns");
    if raw.Null? then Ok(SESSION_MAX_TURNS)
    else if !raw.IsInt() || raw.AsInt() <= 0 then Err(ValueError)
    else Ok(raw.AsInt())
  }

  // ---- One turn ------------------------------------------------------------------------

  /** A request to a session: the user's action and prompt, an attached file (absent, or a reference
      that resolves to a name and text or no longer resolves), and what the clock says. */
  datatype Request = Request(
    action: Value,
    prompt: Value,
    personaMode: string,
    attachment: Option<Option<(string, string)>>,
    memoryKeys: nat,
    latencyMs: int,
    now: string)

  datatype Config = Config(thresholds: Thresholds, fileBudget: int)

  datatype TurnError = SessionNotActive | SessionAtLimit | FileRefExpired | RunRaised(failure: Option<RuntimeFailure>)

  datatype TurnResult =
    | Turned(turn: TurnRecord, state: SessionState, result: ExecutionResult, pause: Option<PauseState>)
    | Failed(error: TurnError)

  datatype TurnEffect = TurnEffect(session: Session, world: World, result: TurnResult)

  function Notice(kept: nat, length: nat): string {
    "\n[File content truncated at context limit — " + Decimal(kept) + " characters shown of " + Decimal(length) + "]"
  }

  /** The attached text in front of the prompt, cut to the budget. */
  function WithAttachment(prompt: string, name: string, text: string, budget: int): string {
    var shown :=
      if |text| <= budget then text
      else
        var kept := Truncation.Truncated(text, budget);
        kept + Notice(|kept|, |text|);
    "[Attached file: " + name + "]\n---\n" + shown + "\n---\n\n" + prompt
  }

  method Attach(prompt: string, name: string, text: string, budget: int) returns (full: string)
    ensures full == WithAttachment(prompt, name, text, budget)
  {
    var shown := text;
    if |text| > budget {
      var kept := Truncation.Truncate(text, budget);
      shown := kept + Notice(|kept|, |text|);
    }
    full := "[Attached file: " + name + "]\n---\n" + shown + "\n---\n\n" + prompt;
  }

  function TurnTask(s: Session, prompt: string, personaMode: string): TaskSpec {
    TaskSpec(Str(s.sessionId + ":turn:" + DecimalInt(s.turnCount)), personaMode, prompt, [],
             map[Name("session_id") := Str(s.sessionId), Name("turn_index") := Int(s.turnCount)])
  }

  /** The session after a turn that ran. */
  function AfterTurn(s: Session, state: SessionState, req: Request, pause: Option<PauseState>): Session {
    var turn := TurnRecord(s.turnCount, state.requestId, state.status, req.personaMode, Some(req.latencyMs),
                           state.errorCode, req.memoryKeys);
    var counted := s.(turns := s.turns + [turn], turnCount := s.turnCount + 1, updatedAt := req.now);
    counted.(status := if counted.IsAtLimit() then AtLimit else if pause.Some? then Paused else s.status)
  }

  function RunTurnSpec(s: Session, prompt: string, req: Request, cfg: Config, mode: SessionMode, orc: Oracle,
                       w: World): TurnEffect
    requires Sound(cfg.thresholds)
  {
    if s.status != Active then TurnEffect(s, w, Failed(SessionNotActive))
    else if s.IsAtLimit() then TurnEffect(s.(status := AtLimit), w, Failed(SessionAtLimit))
    else if req.attachment == Some(None) then TurnEffect(s, w, Failed(FileRefExpired))
    else
      var full := if req.attachment.None? then prompt
                  else
                    var (name, text) := req.attachment.value.value;
                    WithAttachment(prompt, name, text, cfg.fileBudget);
      match orc(w, TurnTask(s, full, req.personaMode))
      case Raised(w', f) => TurnEffect(s, w', Failed(RunRaised(f)))
      case Returned(w', state, result) =>
        var pause := Check(mode, cfg.thresholds, s.turnCount, s.maxTurns, state.requestId, 0, []);
        var after := AfterTurn(s, state, req, pause);
        TurnEffect(after, w', Turned(after.turns[|after.turns| - 1], state, result, pause))
  }

  datatype ModeTransitionEvent = ModeTransitionEvent(
    fromMode: SessionMode, toMode: SessionMode, userAction: string, stepIndex: Option<int>)

  class StewardGate {
    var sessionMode: SessionMode
    const thresholds: Thresholds

    constructor (mode: SessionMode, thresholds: Thresholds)
      ensures this.sessionMode == mode && this.thresholds == thresholds
    {
      this.sessionMode := mode;
      this.thresholds := thresholds;
    }

    /** `update_mode`: the mode the user asked for takes effect; returns the event for telemetry. */
    method UpdateMode(target: SessionMode, userAction: string, stepIndex: Option<int>)
      returns (event: ModeTransitionEvent)
      modifies this
      ensures sessionMode == target
      ensures event == ModeTransitionEvent(old(sessionMode), target, userAction, stepIndex)
    {
      event := ModeTransitionEvent(sessionMode, target, userAction, stepIndex);
      sessionMode := target;
    }
  }

  class DialogueSession {
    var sessionId: string
    var sessionMode: SessionMode
    var turnCount: int
    var maxTurns: int
    var status: Status
    var turns: seq<TurnRecord>
    var createdAt: string
    var updatedAt: string

    constructor (s: Session)
      ensures View() == s
    {
      sessionId, sessionMode, turnCount, maxTurns := s.sessionId, s.sessionMode, s.turnCount, s.maxTurns;
      status, turns, createdAt, updatedAt := s.status, s.turns, s.createdAt, s.updatedAt;
    }

    function View(): Session
      reads this
    {
      Session(sessionId, sessionMode, turnCount, maxTurns, status, turns, createdAt, updatedAt)
    }

    /** `run_turn`. */
    method RunTurn(prompt: string, req: Request, cfg: Config, gate: StewardGate, orc: Oracle, w0: World)
      returns (w: World, result: TurnResult)
      requires Sound(gate.thresholds) && gate.thresholds == cfg.thresholds
      modifies this
      ensures TurnEffect(View(), w, result) == RunTurnSpec(old(View()), prompt, req, cfg, gate.sessionMode, orc, w0)
      ensures sessionId == old(sessionId)
    {
      hide WithAttachment, TurnTask, Check;
      if status != Active {
        return w0, Failed(SessionNotActive);
      }
      if turnCount >= maxTurns {
        status := AtLimit;
        return w0, Failed(SessionAtLimit);
      }
      var turnIndex, full := turnCount, prompt;
      if req.attachment.Some? {
        if req.attachment.value.None? {
          return w0, Failed(FileRefExpired);
        }
        full := Attach(prompt, req.attachment.value.value.0, req.attachment.value.value.1, cfg.fileBudget);
      }
      var reply := orc(w0, TurnTask(View(), full, req.personaMode));
      w := reply.world;
      match reply {
        case Raised(_, f) =>
          result := Failed(RunRaised(f));
        case Returned(_, state, r) =>
          var turn := TurnRecord(turnIndex, state.requestId, state.status, req.personaMode, Some(req.latencyMs),
                                 state.errorCode, req.memoryKeys);
          turns := turns + [turn];
          turnCount := turnCount + 1;
          updatedAt := req.now;
          var pause := Check(gate.sessionMode, gate.thresholds, turnIndex, maxTurns, state.requestId, 0, []);
          if pause.Some? {
            status := Paused;
          }
          if turnCount >= maxTurns {
            status := AtLimit;
          }
          result := Turned(turn, state, r, pause);
      }
    }
  }

  // ---- Persistence -------------------------------------------------------------------------

  const DIALOGUE_SESSION_SCHEMA_VERSION := "v1"

  function ModeText(m: SessionMode): string {
    if m == Work then "work" else "steward"
  }

  function ModeOf(v: Value): Option<SessionMode> {
    if v == Str("work") then Some(Work) else if v == Str("steward") then Some(Steward) else None
  }

  function StatusText(s: Status): string {
    match s
    case Active => "active"
    case Paused => "paused"
    case Closed => "closed"
    case AtLimit => "at_limit"
  }

  function StatusOf(v: Value): Option<Status> {
    if v == Str("active") then Some(Active)
    else if v == Str("paused") then Some(Paused)
    else if v == Str("closed") then Some(Closed)
    else if v == Str("at_limit") then Some(AtLimit)
    else None
  }

  function SerialiseTurn(t: TurnRecord): Value {
    Dict(map[
      Name("turn_index") := Int(t.turnIndex),
      Name("run_id") := Str(t.runId),
      Name("status") := Str(t.status),
      Name("persona_mode") := Str(t.personaMode),
      Name("latency_ms") := OptInt(t.latencyMs),
      Name("error_code") := OptStr(t.errorCode),
      Name("memory_keys_loaded") := Int(t.memoryKeysLoaded)])
  }

  /** The document `save_session` writes. */
  function Serialise(s: Session): Value {
    Dict(map[
      Name("schema_version") := Str(DIALOGUE_SESSION_SCHEMA_VERSION),
      Name("session_id") := Str(s.sessionId),
      Name("session_mode") := Str(ModeText(s.sessionMode)),
      Name("turn_count") := Int(s.turnCount),
      Name("max_turns") := Int(s.maxTurns),
      Name("status") := Str(StatusText(s.status)),
      Name("created_at") := Str(s.createdAt),
      Name("updated_at") := Str(s.updatedAt),
      Name("turns") := List(seq(|s.turns|, i requires 0 <= i < |s.turns| => SerialiseTurn(s.turns[i])))])
  }

  /** One turn of a session file; absent fields take the defaults. */
  function TurnFrom(t: Value, i: nat): Result<TurnRecord> {
    if !t.Dict? then Err(ValueError)
    else
      var index, keys := t.GetOr("turn_index", Int(i)), t.GetOr("memory_keys_loaded", Int(0));
      var runId, status := t.GetOr("run_id", Str("")), t.GetOr("status", Str("ok"));
      var persona := t.GetOr("persona_mode", Str("executor"));
      var latency, error := t.Get("latency_ms"), t.Get("error_code");
      if && index.IsInt() && keys.IsInt() && runId.Str? && status.Str? && persona.Str?
         && (latency.Null? || latency.IsInt()) && (error.Null? || error.Str?)
      then Ok(TurnRecord(index.AsInt(), runId.text, status.text, persona.text,
                         if latency.Null? then None else Some(latency.AsInt()),
                         if error.Null? then None else Some(error.text),
                         keys.AsInt()))
      else Err(TypeError)
  }

  function TurnsFrom(items: seq<Value>): (r: Result<seq<TurnRecord>>)
    ensures r.Ok? ==> |r.value| == |items| && forall i | 0 <= i < |items| :: TurnFrom(items[i], i) == Ok(r.value[i])
    ensures (forall i | 0 <= i < |items| :: TurnFrom(items[i], i).Ok?) ==> r.Ok?
  {
    if items == [] then Ok([])
    else
      var n := |items| - 1;
      match TurnsFrom(items[..n])
      case Err(f) => Err(f)
      case Ok(turns) =>
        match TurnFrom(items[n], n)
        case Err(f) => Err(f)
        case Ok(t) => Ok(turns + [t])
  }

  const REQUIRED_FIELDS := ["schema_version", "session_id", "session_mode", "turn_count",
                            "max_turns", "status", "created_at", "updated_at", "turns"]

  /** The checks before the turns are read. */
  predicate HeaderValid(data: Value) {
    && data.Dict?
    && (forall i | 0 <= i < |REQUIRED_FIELDS| :: data.Has(REQUIRED_FIELDS[i]))
    && data.Get("schema_version") == Str(DIALOGUE_SESSION_SCHEMA_VERSION)
    && ModeOf(data.Get("session_mode")).Some?
    && StatusOf(data.Get("status")).Some?
    && data.Get("turns").List?
  }

  predicate ScalarsTyped(data: Value)
    requires data.Dict?
  {
    && data.Get("session_id").Str? && data.Get("turn_count").IsInt() && data.Get("max_turns").IsInt()
    && data.Get("created_at").Str? && data.Get("updated_at").Str?
  }

  function SessionFrom(data: Value, turns: seq<TurnRecord>): Session
    requires HeaderValid(data) && ScalarsTyped(data)
  {
    Session(data.Get("session_id").text, ModeOf(data.Get("session_mode")).value, data.Get("turn_count").AsInt(),
            data.Get("max_turns").AsInt(), StatusOf(data.Get("status")).value, turns,
            data.Get("created_at").text, data.Get("updated_at").text)
  }

  function Deserialise(data: Value): Result<Session> {
    if !HeaderValid(data) then Err(ValueError)
    else match TurnsFrom(data.Get("turns").items)
      case Err(f) => Err(f)
      case Ok(turns) => if ScalarsTyped(data) then Ok(SessionFrom(data, turns)) else Err(TypeError)
  }

  /** `_deserialise_session`. */
  method DeserialiseSession(data: Value) returns (r: Result<Session>)
    ensures r == Deserialise(data)
  {
    if !HeaderValid(data) {
      return Err(ValueError);
    }
    var items := data.Get("turns").items;
    var turns: seq<TurnRecord> := [];
    for i := 0 to |items|
      invariant TurnsFrom(items[..i]) == Ok(turns)
    {
      assert items[..i + 1][..i] == items[..i];
      var t := TurnFrom(items[i], i);
      if t.Err? {
        PrefixFails(items, i + 1);
        return Err(t.fault);
      }
      turns := turns + [t.value];
    }
    assert items[..|items|] == items;
    r := if ScalarsTyped(data) then Ok(SessionFrom(data, turns)) else Err(TypeError);
  }

  lemma {:induction false} PrefixFails(items: seq<Value>, n: nat)
    requires n <= |items| && TurnsFrom(items[..n]).Err?
    ensures TurnsFrom(items) == TurnsFrom(items[..n])
    decreases |items|
  {
    if n == |items| {
      assert items[..n] == items;
    } else {
      var front := items[..|items| - 1];
      assert front[..n] == items[..n];
      PrefixFails(front, n);
    }
  }

  lemma TurnRoundTrip(t: TurnRecord, i: nat)
    ensures TurnFrom(SerialiseTurn(t), i) == Ok(t)
  {
  }

  lemma SerialisedHeader(s: Session)
    ensures var data := Serialise(s);
            && HeaderValid(data) && ScalarsTyped(data)
            && SessionFrom(data, s.turns) == s
            && data.Get("turns") == List(seq(|s.turns|, i requires 0 <= i < |s.turns| => SerialiseTurn(s.turns[i])))
  {
  }

  /** Saving and loading gives back the same session. */
  lemma SaveLoad(s: Session)
    ensures Deserialise(Serialise(s)) == Ok(s)
  {
    hide Serialise, HeaderValid, SessionFrom, SerialiseTurn, TurnFrom;
    SerialisedHeader(s);
    var items := Serialise(s).Get("turns").items;
    forall i | 0 <= i < |items|
      ensures TurnFrom(items[i], i) == Ok(s.turns[i])
    {
      TurnRoundTrip(s.turns[i], i);
    }
    assert TurnsFrom(items).value == s.turns;
  }

  /** `load_session`. */
  function LoadSpec(files: Files, id: string): Result<Session> {
    if id !in files then Err(ValueError)
    else match files[id]
      case Unreadable => Err(ValueError)
      case Document(data) => Deserialise(data)
  }

  // ---- Handlers ----------------------------------------------------------------------------

  datatype Response =
    | LoadFailed(fault: Fault)
    | SessionClosed
    | ApprovedAwaitingPrompt
    | PausedAwaitingAction
    | PromptRequired
    | TurnDone(result: TurnResult)

  /** The session a handler leaves, whether it stored it, and its answer. */
  datatype Handled = Handled(session: Session, saved: bool, world: World, response: Response)

  predicate Releases(s: Session, req: Request) {
    s.status == Paused && (req.action == Str("approve") || req.action == Str("redirect"))
  }

  function CloseSpec(s: Session, now: string): Session {
    s.(status := Closed, updatedAt := now)
  }

  /** `handle_session_turn` and `cmd_session_continue` on the loaded session. */
  function TurnRequestSpec(s: Session, req: Request, cfg: Config, orc: Oracle, w: World): Handled
    requires Sound(cfg.thresholds)
  {
    if s.status == Paused && req.action == Str("close") then Handled(CloseSpec(s, req.now), true, w, SessionClosed)
    else if s.status == Paused && !Releases(s, req) then Handled(s, false, w, PausedAwaitingAction)
    else
      var s1 := if Releases(s, req) then s.(status := Active) else s;
      if Releases(s, req) && req.action == Str("approve") && !req.prompt.Truthy() then
        Handled(s1, true, w, ApprovedAwaitingPrompt)
      else if !req.prompt.Str? || req.prompt.text == "" then
        Handled(s1, Releases(s, req), w, PromptRequired)
      else
        var t := RunTurnSpec(s1, req.prompt.text, req, cfg, s.sessionMode, orc, w);
        Handled(t.session, true, t.world, TurnDone(t.result))
  }

  /** `execute_session_turn` on the loaded session. */
  function DirectTurnSpec(s: Session, prompt: string, req: Request, cfg: Config, orc: Oracle, w: World): Handled
    requires Sound(cfg.thresholds)
  {
    if s.status != Active then Handled(s, false, w, TurnDone(Failed(SessionNotActive)))
    else
      var t := RunTurnSpec(s, prompt, req, cfg, s.sessionMode, orc, w);
      Handled(t.session, true, t.world, TurnDone(t.result))
  }

  function Stored(files: Files, h: Handled): Files {
    if h.saved then files[h.session.sessionId := Document(Serialise(h.session))] else files
  }

  /** The session directory. */
  class SessionStore {
    var files: Files

    /** `save_session`. */
    method Save(s: DialogueSession)
      modifies this
      ensures files == old(files)[s.sessionId := Document(Serialise(s.View()))]
    {
      files := files[s.sessionId := Document(Serialise(s.View()))];
    }

    /** `load_session`. */
    method Load(id: string) returns (fault: Option<Fault>, s: DialogueSession?)
      ensures match LoadSpec(files, id)
              case Err(f) => fault == Some(f)
              case Ok(v) => fault.None? && s != null && fresh(s) && s.View() == v
    {
      if id !in files || files[id].Unreadable? {
        return Some(ValueError), null;
      }
      var r := DeserialiseSession(files[id].data);
      match r {
        case Err(f) =>
          fault, s := Some(f), null;
        case Ok(v) =>
          fault := None;
          s := new DialogueSession(v);
      }
    }

    /** `_do_close` and `_close_session`. */
    method DoClose(s: DialogueSession, now: string)
      modifies this, s
      ensures s.View() == CloseSpec(old(s.View()), now)
      ensures files == old(files)[s.sessionId := Document(Serialise(s.View()))]
    {
      s.status := Closed;
      s.updatedAt := now;
      Save(s);
    }

    /** `handle_session_turn`. */
    method HandleSessionTurn(id: string, req: Request, cfg: Config, orc: Oracle, w0: World)
      returns (w: World, response: Response)
      requires Sound(cfg.thresholds)
      modifies this
      ensures match LoadSpec(old(files), id)
              case Err(f) => files == old(files) && w == w0 && response == LoadFailed(f)
              case Ok(s) =>
                var h := TurnRequestSpec(s, req, cfg, orc, w0);
                files == Stored(old(files), h) && w == h.world && response == h.response
    {
      hide RunTurnSpec, Serialise, LoadSpec;
      var fault, s := Load(id);
      if fault.Some? {
        return w0, LoadFailed(fault.value);
      }
      if s.status == Paused {
        if req.action == Str("close") {
          DoClose(s, req.now);
          return w0, SessionClosed;
        } else if req.action == Str("approve") || req.action == Str("redirect") {
          s.status := Active;
          Save(s);
          if req.action == Str("approve") && !req.prompt.Truthy() {
            return w0, ApprovedAwaitingPrompt;
          }
        } else {
          return w0, PausedAwaitingAction;
        }
      }
      if !req.prompt.Str? || req.prompt.text == "" {
        return w0, PromptRequired;
      }
      var gate := new StewardGate(s.sessionMode, cfg.thresholds);
      var result: TurnResult;
      w, result := s.RunTurn(req.prompt.text, req, cfg, gate, orc, w0);
      Save(s);
      response := TurnDone(result);
    }

    /** `execute_session_turn`. */
    method ExecuteSessionTurn(id: string, prompt: string, req: Request, cfg: Config, orc: Oracle, w0: World)
      returns (w: World, response: Response)
      requires Sound(cfg.thresholds)
      modifies this
      ensures match LoadSpec(old(files), id)
              case Err(f) => files == old(files) && w == w0 && response == LoadFailed(f)
              case Ok(s) =>
                var h := DirectTurnSpec(s, prompt, req, cfg, orc, w0);
                files == Stored(old(files), h) && w == h.world && response == h.response
    {
      hide RunTurnSpec, Serialise, LoadSpec;
      var fault, s := Load(id);
      if fault.Some? {
        return w0, LoadFailed(fault.value);
      }
      if s.status != Active {
        return w0, TurnDone(Failed(SessionNotActive));
      }
      var gate := new StewardGate(s.sessionMode, cfg.thresholds);
      var result: TurnResult;
      w, result := s.RunTurn(prompt, req, cfg, gate, orc, w0);
      Save(s);
      response := TurnDone(result);
    }

    /** `handle_session_delete` and `cmd_session_close`. */
    method CloseSession(id: string, now: string) returns (response: Response)
      modifies this
      ensures match LoadSpec(old(files), id)
              case Err(f) => files == old(files) && response == LoadFailed(f)
              case Ok(s) =>
                files == old(files)[s.sessionId := Document(Serialise(CloseSpec(s, now)))] && response == SessionClosed
    {
      var fault, s := Load(id);
      if fault.Some? {
        return LoadFailed(fault.value);
      }
      DoClose(s, now);
      response := SessionClosed;
    }
  }
}
