/** What sessions record and answer, in terms of what the oracle answered and the user asked for. */
module SessionAnswers {
  import opened Values
  import opened SessionStates
  import opened Runbooks
  import opened Oracles
  import opened Sessions
  import opened SessionLaws
  import Truncation

  // ---- One action ------------------------------------------------------------------------

  predicate HasTurned(r: Response) {
    r.TurnDone? && r.result.Turned?
  }

  /** The request an action carries. */
  function RequestOf(a: Action): Request
    requires !a.Close?
  {
    a.req
  }

  /** The text the user typed. */
  function TypedBy(a: Action): string
    requires !a.Close?
  {
    match a
    case Turn(req, _) => if req.prompt.Str? then req.prompt.text else ""
    case DirectTurn(prompt, _, _) => prompt
  }

  /** The task a turn gives the oracle: named by session and turn, in the persona's mode, with the typed
      text last in its prompt and an attached file, if any, in front of it. */
  ghost predicate IsTaskOf(task: TaskSpec, s: Session, a: Action, cfg: Config)
    requires !a.Close?
  {
    && task.taskSpecId == Str(s.sessionId + ":turn:" + DecimalInt(s.turnCount))
    && task.mode == RequestOf(a).personaMode && task.capabilities == []
    && Name("session_id") in task.metadata && task.metadata[Name("session_id")] == Str(s.sessionId)
    && Name("turn_index") in task.metadata && task.metadata[Name("turn_index")] == Int(s.turnCount)
    && match RequestOf(a).attachment
       case None => task.prompt == TypedBy(a)
       case Some(None) => false
       case Some(Some((name, text))) =>
         exists shown :: Shows(shown, text, cfg.fileBudget)
                         && task.prompt == "[Attached file: " + name + "]\n---\n" + shown + "\n---\n\n" + TypedBy(a)
  }

  /** A file within the budget is shown whole, a longer one as what the cut keeps of it and a notice. */
  predicate Shows(shown: string, text: string, budget: int) {
    if |text| <= budget then shown == text
    else
      var kept := Truncation.Truncated(text, budget);
      kept <= shown && shown[|kept|..] == Notice(|kept|, |text|)
  }

  lemma AttachmentIsShown(prompt: string, name: string, text: string, budget: int) returns (shown: string)
    ensures Shows(shown, text, budget)
    ensures WithAttachment(prompt, name, text, budget) ==
            "[Attached file: " + name + "]\n---\n" + shown + "\n---\n\n" + prompt
  {
    hide Notice;
    var kept := Truncation.Truncated(text, budget);
    shown := if |text| <= budget then text else kept + Notice(|kept|, |text|);
  }

  lemma TaskIsAsked(s: Session, a: Action, cfg: Config, full: string)
    requires !a.Close?
    requires full == match RequestOf(a).attachment
                     case Some(Some((name, text))) => WithAttachment(TypedBy(a), name, text, cfg.fileBudget)
                     case _ => TypedBy(a)
    requires RequestOf(a).attachment != Some(None)
    ensures IsTaskOf(TurnTask(s, full, RequestOf(a).personaMode), s, a, cfg)
  {
    hide WithAttachment, Shows;
    match RequestOf(a).attachment
    case Some(Some((name, text))) =>
      var shown := AttachmentIsShown(TypedBy(a), name, text, cfg.fileBudget);
    case _ =>
  }

  /** A turn that is answered with success recorded exactly what the oracle returned for its task. */
  ghost predicate IsRecorded(turn: TurnRecord, state: SessionState, s: Session, req: Request) {
    && turn.turnIndex == s.turnCount
    && turn.runId == state.requestId && turn.status == state.status && turn.errorCode == state.errorCode
    && turn.personaMode == req.personaMode && turn.latencyMs == Some(req.latencyMs)
    && turn.memoryKeysLoaded == req.memoryKeys
  }

  /** What an action does, by its answer: a turn that succeeds was returned by the oracle for the task it
      asks for and is recorded at the end; one that raises was raised by the oracle for it and records
      nothing; and every other answer comes without a call and records nothing. */
  ghost predicate IsAnswered(s: Session, a: Action, h: Handled, cfg: Config, orc: Oracle) {
    var t := h.session;
    if h.response.TurnDone? && h.response.result.Turned? && !a.Close? then
      var r := h.response.result;
      && (exists task :: IsTaskOf(task, s, a, cfg) && orc(a.world, task) == Returned(h.world, r.state, r.result))
      && IsRecorded(r.turn, r.state, s, RequestOf(a))
      && t.turns == s.turns + [r.turn] && t.turnCount == s.turnCount + 1 && t.updatedAt == RequestOf(a).now
      && h.saved
    else if h.response.TurnDone? && h.response.result.Failed? && h.response.result.error.RunRaised? && !a.Close? then
      && (exists task :: IsTaskOf(task, s, a, cfg)
                         && orc(a.world, task) == Raised(h.world, h.response.result.error.failure))
      && t.turns == s.turns && t.turnCount == s.turnCount && t.status == Active && t.updatedAt == s.updatedAt && h.saved
    else
      h.world == a.world && t.turns == s.turns && t.turnCount == s.turnCount
  }

  lemma RunTurnAnswers(s: Session, s1: Session, a: Action, prompt: string, cfg: Config, orc: Oracle)
    requires Sound(cfg.thresholds) && !a.Close? && prompt == TypedBy(a)
    requires s1 == s.(status := s1.status)
    ensures var t := RunTurnSpec(s1, prompt, RequestOf(a), cfg, s.sessionMode, orc, a.world);
            IsAnswered(s, a, Handled(t.session, true, t.world, TurnDone(t.result)), cfg, orc)
  {
    hide WithAttachment, TurnTask, Check, IsTaskOf;
    var req := RequestOf(a);
    if s1.status == Active && !s1.IsAtLimit() && req.attachment != Some(None) {
      var full := if req.attachment.None? then prompt
                  else
                    var (name, text) := req.attachment.value.value;
                    WithAttachment(prompt, name, text, cfg.fileBudget);
      TaskIsAsked(s, a, cfg, full);
      assert TurnTask(s1, full, req.personaMode) == TurnTask(s, full, req.personaMode) by {
        SameTask(s, s1, full, req.personaMode);
      }
      assert IsTaskOf(TurnTask(s, full, req.personaMode), s, a, cfg);
    }
  }

  lemma SameTask(s: Session, s1: Session, full: string, personaMode: string)
    requires s1 == s.(status := s1.status)
    ensures TurnTask(s1, full, personaMode) == TurnTask(s, full, personaMode)
  {
  }

  /** Every action on every session is answered like that. */
  lemma ActionIsAnswered(s: Session, a: Action, cfg: Config, orc: Oracle)
    requires Sound(cfg.thresholds)
    ensures IsAnswered(s, a, Apply(s, a, cfg, orc), cfg, orc)
  {
    hide RunTurnSpec, IsTaskOf, IsRecorded;
    match a
    case Turn(req, w) =>
      var s1 := if Releases(s, req) then s.(status := Active) else s;
      RunTurnAnswers(s, s1, a, TypedBy(a), cfg, orc);
    case DirectTurn(prompt, req, w) =>
      RunTurnAnswers(s, s, a, prompt, cfg, orc);
    case Close(_, _) =>
  }

  /** A release is an approval or a redirect of a paused session. */
  lemma ReleasesIff(s: Session, req: Request)
    ensures Releases(s, req) <==> s.status == Paused && req.action in {Str("approve"), Str("redirect")}
  {
  }

  /** Nothing keeps a turn from the oracle that is typed to a session that is active or being released, with
      turns left, and whose attachment, if any, resolves. */
  lemma ActiveSessionsTurn(s: Session, a: Action, cfg: Config, orc: Oracle)
    requires Sound(cfg.thresholds) && !a.Close?
    requires || s.status == Active
             || (a.Turn? && s.status == Paused && a.req.action in {Str("approve"), Str("redirect")})
    requires s.turnCount < s.maxTurns && RequestOf(a).attachment != Some(None)
    requires a.Turn? ==> a.req.prompt.Str? && a.req.prompt.text != ""
    ensures var r := Apply(s, a, cfg, orc).response;
            r.TurnDone? && (r.result.Turned? || r.result.error.RunRaised?)
  {
    hide WithAttachment, TurnTask, Check;
  }

  /** The actions that are no turn: a paused session is closed, released or left alone as the user says, any
      session is closed by a close, nothing is asked without a text, and no closed or full session turns. */
  lemma InactiveSessions(s: Session, a: Action, cfg: Config, orc: Oracle)
    requires Sound(cfg.thresholds)
    ensures var h := Apply(s, a, cfg, orc);
            && (a.Close? ==> h.session == s.(status := Closed, updatedAt := a.now) && h.saved)
            && (a.Turn? && s.status == Paused && a.req.action == Str("close") ==>
                  h.session == s.(status := Closed, updatedAt := a.req.now) && h.saved && h.response == SessionClosed)
            && (a.Turn? && s.status == Paused && a.req.action == Str("approve") && !a.req.prompt.Truthy() ==>
                  h.session == s.(status := Active) && h.saved && h.response == ApprovedAwaitingPrompt)
            && (a.Turn? && s.status == Paused && a.req.action !in {Str("close"), Str("approve"), Str("redirect")} ==>
                  h.session == s && !h.saved && h.response == PausedAwaitingAction)
            && (a.Turn? && s.status == Paused && a.req.action == Str("redirect") && a.req.prompt in {Null, Str("")} ==>
                  h.session == s.(status := Active) && h.saved && h.response == PromptRequired)
            && (a.Turn? && s.status != Paused && (!a.req.prompt.Str? || a.req.prompt == Str("")) ==>
                  h.session == s && !h.saved && h.response == PromptRequired)
            && (s.status in {Closed, AtLimit} ==> !HasTurned(h.response))
            && (s.status == Paused && a.DirectTurn? ==> h.session == s && !HasTurned(h.response))
  {
    hide TurnTask, WithAttachment, Check;
  }

  // ---- Numbers in texts ------------------------------------------------------------------------

  /** The number a string of digits reads as. */
  function NumberIn(digits: string): nat {
    if digits == "" then 0
    else 10 * NumberIn(digits[..|digits| - 1]) + (digits[|digits| - 1] as int - '0' as int) % 10
  }

  /** Counts are printed so that they can be read back: a task's name tells its turn. */
  lemma {:induction false} DecimalReads(n: nat)
    ensures NumberIn(Decimal(n)) == n
    decreases n
  {
    DigitReads(n % 10);
    if n < 10 {
      assert Decimal(n)[..0] == "";
    } else {
      var front, last := Decimal(n / 10), ["0123456789"[n % 10]];
      assert (front + last)[..|front + last| - 1] == front;
      DecimalReads(n / 10);
    }
  }

  lemma DigitReads(d: nat)
    requires d < 10
    ensures "0123456789"[d] as int - '0' as int == d
  {
    match d
    case 0 =>
    case 1 =>
    case 2 =>
    case 3 =>
    case 4 =>
    case 5 =>
    case 6 =>
    case 7 =>
    case 8 =>
    case 9 =>
  }

  // ---- Any run of actions --------------------------------------------------------------------

  function Responses(s: Session, actions: seq<Action>, cfg: Config, orc: Oracle): seq<Response>
    requires Sound(cfg.thresholds)
    decreases |actions|
  {
    if actions == [] then []
    else
      var h := Apply(s, actions[0], cfg, orc);
      [h.response] + Responses(h.session, actions[1..], cfg, orc)
  }

  /** The records in the successful turn responses, in order. */
  function RecordsIn(responses: seq<Response>): seq<TurnRecord> {
    if responses == [] then []
    else (if HasTurned(responses[0]) then [responses[0].result.turn] else []) + RecordsIn(responses[1..])
  }

  lemma CloseNeverTurns(s: Session, a: Action, cfg: Config, orc: Oracle)
    requires Sound(cfg.thresholds) && a.Close?
    ensures Apply(s, a, cfg, orc).response == SessionClosed
  {
  }

  /** A session holds exactly the turns it answered: its count is the number of successful turn responses,
      and its records are theirs, in order. */
  lemma {:induction false} TurnsAreTheAnsweredOnes(s: Session, actions: seq<Action>, cfg: Config, orc: Oracle)
    requires Sound(cfg.thresholds)
    ensures var t, records := RunAll(s, actions, cfg, orc), RecordsIn(Responses(s, actions, cfg, orc));
            t.turns == s.turns + records && t.turnCount == s.turnCount + |records|
    decreases |actions|
  {
    hide Apply, IsTaskOf, IsRecorded;
    if actions != [] {
      var a, h := actions[0], Apply(s, actions[0], cfg, orc);
      ActionIsAnswered(s, a, cfg, orc);
      if a.Close? {
        CloseNeverTurns(s, a, cfg, orc);
      }
      TurnsAreTheAnsweredOnes(h.session, actions[1..], cfg, orc);
      var responses := Responses(s, actions, cfg, orc);
      assert responses[0] == h.response && responses[1..] == Responses(h.session, actions[1..], cfg, orc);
    }
  }

  lemma {:induction false} RunAllAppend(s: Session, a: seq<Action>, b: seq<Action>, cfg: Config, orc: Oracle)
    requires Sound(cfg.thresholds)
    ensures RunAll(s, a + b, cfg, orc) == RunAll(RunAll(s, a, cfg, orc), b, cfg, orc)
    ensures ReleaseCount(s, a + b, cfg, orc) ==
            ReleaseCount(s, a, cfg, orc) + ReleaseCount(RunAll(s, a, cfg, orc), b, cfg, orc)
    decreases |a|
  {
    hide Apply;
    if a == [] {
      assert a + b == b;
    } else {
      assert (a + b)[1..] == a[1..] + b && (a + b)[0] == a[0];
      RunAllAppend(Apply(s, a[0], cfg, orc).session, a[1..], b, cfg, orc);
    }
  }

  /** The gate does fire: from any state a steward session reaches, k successful turns without a release
      leave it paused, at its limit or closed by the user. */
  lemma GateFires(id: string, max: int, now: string, before: seq<Action>, actions: seq<Action>, k: int, cfg: Config,
                  orc: Oracle)
    requires Sound(cfg.thresholds) && cfg.thresholds.stepCount == Some(k)
    requires var s := RunAll(NewSession(id, Steward, max, now), before, cfg, orc);
             ReleaseCount(s, actions, cfg, orc) == 0 && |RecordsIn(Responses(s, actions, cfg, orc))| >= k
    ensures var s := RunAll(NewSession(id, Steward, max, now), before, cfg, orc);
            RunAll(s, actions, cfg, orc).status in {Paused, AtLimit, Closed}
  {
    hide RunAll, ReleaseCount, Responses, RecordsIn;
    var start := NewSession(id, Steward, max, now);
    var s := RunAll(start, before, cfg, orc);
    RunAllKeepsGated(start, 0, before, k, cfg, orc);
    RunAllKeepsGated(start, 0, before + actions, k, cfg, orc);
    RunAllAppend(start, before, actions, cfg, orc);
    TurnsAreTheAnsweredOnes(s, actions, cfg, orc);
    var r := ReleaseCount(start, before, cfg, orc);
    assert k * (r + 1) == k * r + k;
  }

  // ---- Thresholds ------------------------------------------------------------------------------

  /** A declared step count or token budget is what is loaded; an absent one is no threshold. */
  lemma DeclaredThresholdsAreLoaded(config: Value)
    requires config.Dict? && config.Get("steward_thresholds").Dict? && config.Get("steward_thresholds").Truthy()
    ensures var raw, loaded := config.Get("steward_thresholds"), LoadStewardThresholds(config);
            && (loaded.Ok? <==>
                  && (raw.Has("step_count") ==> raw.Get("step_count").IsInt() && raw.Get("step_count").AsInt() > 0)
                  && (raw.Has("token_budget") ==>
                        raw.Get("token_budget").IsInt() && raw.Get("token_budget").AsInt() > 0)
                  && (raw.Has("capability_classes") ==>
                        raw.Get("capability_classes").List? &&
                        forall c | c in raw.Get("capability_classes").items :: c.Str? && Strip(c.text) != ""))
            && (loaded.Ok? ==>
                  && loaded.value.stepCount ==
                       (if raw.Has("step_count") then Some(raw.Get("step_count").AsInt()) else None)
                  && loaded.value.tokenBudget ==
                       (if raw.Has("token_budget") then Some(raw.Get("token_budget").AsInt()) else None)
                  && forall c :: c in loaded.value.capabilityClasses <==>
                                 raw.Has("capability_classes") && Str(c) in raw.Get("capability_classes").items)
  {
    hide Strip;
    var raw := config.Get("steward_thresholds");
    var loaded := LoadStewardThresholds(config);
    if raw.Has("capability_classes") && raw.Get("capability_classes").List? {
      var items := raw.Get("capability_classes").items;
      assert forall i | 0 <= i < |items| :: items[i] in items;
      if loaded.Ok? {
        assert forall i | 0 <= i < |items| :: Str(loaded.value.capabilityClasses[i]) == items[i];
        forall c: string | Str(c) in items
          ensures c in loaded.value.capabilityClasses
        {
          var i :| 0 <= i < |items| && items[i] == Str(c);
          assert loaded.value.capabilityClasses[i] == c;
        }
      }
    }
  }

  /** Without a declaration there is no threshold. */
  lemma NoThresholdsByDefault(config: Value)
    requires config.Dict? && !config.Get("steward_thresholds").Truthy()
    ensures LoadStewardThresholds(config) == Ok(Thresholds(None, None, []))
  {
  }

  /** Each threshold fires on its own quantity, the first declared one first. */
  lemma ThresholdFires(t: Thresholds, stepIndex: int, tokens: int, invoked: seq<string>)
    requires Sound(t)
    ensures var fired := EvaluateThresholds(t, stepIndex, tokens, invoked);
            var steps := t.stepCount.Some? && (stepIndex + 1) % t.stepCount.value == 0;
            var budget := t.tokenBudget.Some? && tokens > t.tokenBudget.value;
            var classes := exists c :: c in invoked && c in t.capabilityClasses;
            && (fired == Some("step_count") <==> steps)
            && (fired == Some("token_budget") <==> !steps && budget)
            && (fired == Some("capability_classes") <==> !steps && !budget && classes)
            && (fired.None? <==> !steps && !budget && !classes)
  {
    assert forall i | 0 <= i < |invoked| :: invoked[i] in invoked;
  }

  // ---- The stored document ---------------------------------------------------------------------

  /** The names under which a session is stored. */
  lemma StoredNames(s: Session)
    ensures var d := Serialise(s);
            && d.Dict? && d.Get("session_id") == Str(s.sessionId)
            && d.Get("session_mode") == Str(if s.sessionMode == Work then "work" else "steward")
            && d.Get("turn_count") == Int(s.turnCount) && d.Get("max_turns") == Int(s.maxTurns)
            && d.Get("created_at") == Str(s.createdAt) && d.Get("updated_at") == Str(s.updatedAt)
            && d.Get("turns").List? && |d.Get("turns").items| == |s.turns|
            && forall i | 0 <= i < |s.turns| :: d.Get("turns").items[i] == SerialiseTurn(s.turns[i])
  {
    hide SerialiseTurn, StatusText;
  }

  /** The names under which a turn is stored. */
  lemma StoredTurnNames(t: TurnRecord)
    ensures var d := SerialiseTurn(t);
            && d.Dict? && d.Get("turn_index") == Int(t.turnIndex)
            && d.Get("run_id") == Str(t.runId) && d.Get("status") == Str(t.status)
            && d.Get("persona_mode") == Str(t.personaMode)
            && d.Get("latency_ms") == OptInt(t.latencyMs) && d.Get("error_code") == OptStr(t.errorCode)
            && d.Get("memory_keys_loaded") == Int(t.memoryKeysLoaded)
  {
  }

  /** What a session file must hold, and where each field is read from. */
  lemma SessionIsReadFrom(data: Value)
    ensures var r := Deserialise(data);
            r.Ok? ==>
              && data.Dict? && data.Get("schema_version") == Str("v1")
              && data.Get("session_id") == Str(r.value.sessionId)
              && data.Get("session_mode") == Str(if r.value.sessionMode == Work then "work" else "steward")
              && data.Get("turn_count").IsInt() && data.Get("turn_count").AsInt() == r.value.turnCount
              && data.Get("max_turns").IsInt() && data.Get("max_turns").AsInt() == r.value.maxTurns
              && data.Get("status") == Str(StatusText(r.value.status))
              && data.Get("created_at") == Str(r.value.createdAt) && data.Get("updated_at") == Str(r.value.updatedAt)
              && data.Get("turns").List? && |data.Get("turns").items| == |r.value.turns|
              && forall i | 0 <= i < |r.value.turns| :: TurnFrom(data.Get("turns").items[i], i) == Ok(r.value.turns[i])
  {
    hide TurnFrom, TurnsFrom, StatusText, ModeText;
    StatusNames();
  }

  lemma StatusNames()
    ensures StatusText(Active) == "active" && StatusText(Paused) == "paused"
    ensures StatusText(Closed) == "closed" && StatusText(AtLimit) == "at_limit"
    ensures forall v, s | StatusOf(v) == Some(s) :: v == Str(StatusText(s))
    ensures forall v, m | ModeOf(v) == Some(m) :: v == Str(if m == Work then "work" else "steward")
  {
  }

  lemma RequiredNames(data: Value)
    ensures Deserialise(data).Ok? ==> forall name | name in REQUIRED_NAMES :: data.Has(name)
  {
    hide TurnsFrom, ScalarsTyped;
    assert forall name | name in REQUIRED_NAMES :: name in REQUIRED_FIELDS;
  }

  const REQUIRED_NAMES := {"schema_version", "session_id", "session_mode", "turn_count", "max_turns", "status",
                           "created_at", "updated_at", "turns"}

  lemma MissingSessionsAreNotLoaded(files: Files, id: string)
    ensures id !in files || files[id].Unreadable? ==> LoadSpec(files, id) == Err(ValueError)
    ensures id in files && files[id].Document? ==> LoadSpec(files, id) == Deserialise(files[id].data)
  {
  }

  /** The turn limit is the configured one, fifty without a configuration, and must be a positive integer. */
  lemma MaxTurnsIsLoaded(config: Value)
    requires config.Dict?
    ensures var raw, r := config.Get("session_max_turns"), LoadMaxTurns(config);
            && (r.Ok? <==> raw == Null || (raw.IsInt() && raw.AsInt() >= 1))
            && (r.Ok? ==> r.value == if raw == Null then 50 else raw.AsInt())
  {
  }
}
