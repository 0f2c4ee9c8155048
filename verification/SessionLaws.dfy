/** What holds of every reachable dialogue session, however many requests it has served. */
module SessionLaws {
  import opened Values
  import opened SessionStates
  import opened Oracles
  import opened Sessions

  /** Anything a user can do to a session; each request meets the world as it then is. */
  datatype Action =
    | Turn(req: Request, world: World)
    | DirectTurn(prompt: string, req: Request, world: World)
    | Close(now: string, world: World)

  function Apply(s: Session, a: Action, cfg: Config, orc: Oracle): Handled
    requires Sound(cfg.thresholds)
  {
    match a
    case Turn(req, w) => TurnRequestSpec(s, req, cfg, orc, w)
    case DirectTurn(prompt, req, w) => DirectTurnSpec(s, prompt, req, cfg, orc, w)
    case Close(now, w) => Handled(CloseSpec(s, now), true, w, SessionClosed)
  }

  /** The session after a list of actions. */
  function RunAll(s: Session, actions: seq<Action>, cfg: Config, orc: Oracle): Session
    requires Sound(cfg.thresholds)
    decreases |actions|
  {
    if actions == [] then s else RunAll(Apply(s, actions[0], cfg, orc).session, actions[1..], cfg, orc)
  }

  // ---- Counting and limits -------------------------------------------------------------

  predicate Counted(s: Session) {
    && s.turnCount == |s.turns| <= s.maxTurns
    && (forall i | 0 <= i < |s.turns| :: s.turns[i].turnIndex == i)
    && (s.status == Active || s.status == Paused ==> s.turnCount < s.maxTurns)
    && (s.status == AtLimit ==> s.turnCount == s.maxTurns)
  }

  /** What a turn keeps of a counted session, and what it leaves as it was. */
  ghost predicate Follows(s: Session, t: Session) {
    && Counted(t)
    && (t.sessionId, t.sessionMode, t.maxTurns, t.createdAt) == (s.sessionId, s.sessionMode, s.maxTurns, s.createdAt)
    && s.turns <= t.turns && |t.turns| <= |s.turns| + 1
  }

  lemma RunTurnKeepsCounted(s: Session, prompt: string, req: Request, cfg: Config, orc: Oracle, w: World)
    requires Sound(cfg.thresholds) && Counted(s)
    ensures var t := RunTurnSpec(s, prompt, req, cfg, s.sessionMode, orc, w);
            Follows(s, t.session) && t.result != Failed(SessionAtLimit)
  {
    hide TurnTask, WithAttachment, Check;
  }

  lemma ApplyKeepsCounted(s: Session, a: Action, cfg: Config, orc: Oracle)
    requires Sound(cfg.thresholds) && Counted(s)
    ensures var h := Apply(s, a, cfg, orc);
            && Follows(s, h.session)
            && h.response != TurnDone(Failed(SessionAtLimit))
            && (!h.saved ==> h.session == s)
  {
    hide RunTurnSpec;
    match a
    case Turn(req, w) =>
      var s1 := if Releases(s, req) then s.(status := Active) else s;
      RunTurnKeepsCounted(s1, if req.prompt.Str? then req.prompt.text else "", req, cfg, orc, w);
    case DirectTurn(prompt, req, w) =>
      RunTurnKeepsCounted(s, prompt, req, cfg, orc, w);
    case Close(_, _) =>
  }

  lemma {:induction false} RunAllKeepsCounted(s: Session, actions: seq<Action>, cfg: Config, orc: Oracle)
    requires Sound(cfg.thresholds) && Counted(s)
    ensures Counted(RunAll(s, actions, cfg, orc))
    ensures var t := RunAll(s, actions, cfg, orc); t.sessionMode == s.sessionMode && t.maxTurns == s.maxTurns
    decreases |actions|
  {
    if actions != [] {
      ApplyKeepsCounted(s, actions[0], cfg, orc);
      RunAllKeepsCounted(Apply(s, actions[0], cfg, orc).session, actions[1..], cfg, orc);
    }
  }

  /** Every session reachable from a new one with a positive limit counts its turns, numbers them in
      order, stays within the limit, and has turns left whenever it is active or paused. */
  lemma ReachableSessionsAreCounted(id: string, mode: SessionMode, max: int, now: string, actions: seq<Action>,
                                    cfg: Config, orc: Oracle)
    requires Sound(cfg.thresholds) && max > 0
    ensures var s := RunAll(NewSession(id, mode, max, now), actions, cfg, orc);
            Counted(s) && s.maxTurns == max
  {
    RunAllKeepsCounted(NewSession(id, mode, max, now), actions, cfg, orc);
  }

  /** Some request to some reachable session is refused with SESSION_AT_LIMIT. */
  ghost predicate LimitErrorReachable(id: string, mode: SessionMode, max: int, now: string, cfg: Config, orc: Oracle)
    requires Sound(cfg.thresholds)
  {
    exists actions, a ::
      Apply(RunAll(NewSession(id, mode, max, now), actions, cfg, orc), a, cfg, orc).response ==
      TurnDone(Failed(SessionAtLimit))
  }

  /** The SESSION_AT_LIMIT refusal can be reached exactly in sessions created with no turns at all:
      otherwise the turn that uses up the limit already takes the session out of the active state. */
  lemma LimitErrorIffNoTurns(id: string, mode: SessionMode, max: int, now: string, cfg: Config, orc: Oracle, w: World)
    requires Sound(cfg.thresholds)
    ensures LimitErrorReachable(id, mode, max, now, cfg, orc) <==> max <= 0
  {
    var s := NewSession(id, mode, max, now);
    if max <= 0 {
      var a := DirectTurn("", Request(Null, Null, "", None, 0, 0, now), w);
      assert RunAll(s, [], cfg, orc) == s;
      assert Apply(RunAll(s, [], cfg, orc), a, cfg, orc).response == TurnDone(Failed(SessionAtLimit));
    } else {
      forall actions, a
        ensures Apply(RunAll(s, actions, cfg, orc), a, cfg, orc).response != TurnDone(Failed(SessionAtLimit))
      {
        RunAllKeepsCounted(s, actions, cfg, orc);
        ApplyKeepsCounted(RunAll(s, actions, cfg, orc), a, cfg, orc);
      }
    }
  }

  /** A limit that comes from the configuration is positive, so no request to such a session is refused
      with SESSION_AT_LIMIT, and what holds of counted sessions holds of it. */
  lemma ConfiguredLimitsAreKept(config: Value, id: string, mode: SessionMode, now: string, actions: seq<Action>,
                                a: Action, cfg: Config, orc: Oracle)
    requires Sound(cfg.thresholds) && config.Dict? && LoadMaxTurns(config).Ok?
    ensures var s := RunAll(NewSession(id, mode, LoadMaxTurns(config).value, now), actions, cfg, orc);
            Counted(s) && Apply(s, a, cfg, orc).response != TurnDone(Failed(SessionAtLimit))
  {
    hide Apply, RunAll, Counted;
    var max := LoadMaxTurns(config).value;
    ReachableSessionsAreCounted(id, mode, max, now, actions, cfg, orc);
    ApplyKeepsCounted(RunAll(NewSession(id, mode, max, now), actions, cfg, orc), a, cfg, orc);
  }

  /** A closed session stays closed with the turns it had; only another close touches its timestamp. */
  lemma {:induction false} ClosedIsAbsorbing(s: Session, actions: seq<Action>, cfg: Config, orc: Oracle)
    requires Sound(cfg.thresholds) && s.status == Closed
    ensures var t := RunAll(s, actions, cfg, orc); t == s.(updatedAt := t.updatedAt)
    decreases |actions|
  {
    if actions != [] {
      ClosedIsAbsorbing(Apply(s, actions[0], cfg, orc).session, actions[1..], cfg, orc);
    }
  }

  // ---- The steward gate ------------------------------------------------------------------

  /** Number of actions in a run that release a paused session: approvals and redirects. */
  function ReleaseCount(s: Session, actions: seq<Action>, cfg: Config, orc: Oracle): nat
    requires Sound(cfg.thresholds)
    decreases |actions|
  {
    if actions == [] then 0
    else
      (if actions[0].Turn? && Releases(s, actions[0].req) then 1 else 0)
      + ReleaseCount(Apply(s, actions[0], cfg, orc).session, actions[1..], cfg, orc)
  }

  predicate Gated(s: Session, releases: nat, k: int) {
    && k * releases <= s.turnCount <= k * (releases + 1)
    && (s.status == Active ==> s.turnCount < k * (releases + 1))
    && (s.status == Paused ==> s.turnCount == k * (releases + 1))
  }

  /** Between two multiples of k, the next turn reaches a multiple only at the upper one. */
  lemma FiresAtTheBoundary(n: int, k: int, r: int)
    requires k >= 1 && k * r <= n < k * (r + 1)
    ensures (n + 1) % k == 0 <==> n + 1 == k * (r + 1)
    ensures n / k == r
  {
    var d := n - k * r;
    assert k * (r + 1) == k * r + k;
    assert n + 1 == k * r + (d + 1);
    DivModUnique(n, k, r, d);
    if d + 1 == k {
      DivModUnique(n + 1, k, r + 1, 0);
    } else {
      DivModUnique(n + 1, k, r, d + 1);
    }
  }

  lemma DivModUnique(n: int, k: int, q: int, d: int)
    requires k >= 1 && n == k * q + d && 0 <= d < k
    ensures n / k == q && n % k == d
  {
    var q', d' := n / k, n % k;
    assert k * (q - q') == k * q - k * q' == d' - d;
    assert k * (q' - q) == k * q' - k * q;
    if q > q' {
      MultipleIsAtLeast(k, q - q');
    } else if q < q' {
      MultipleIsAtLeast(k, q' - q);
    }
  }

  lemma {:induction false} MultipleIsAtLeast(k: int, m: int)
    requires k >= 1 && m >= 1
    ensures k * m >= k
    decreases m
  {
    if m > 1 {
      MultipleIsAtLeast(k, m - 1);
      assert k * m == k * (m - 1) + k;
    }
  }

  lemma RunTurnKeepsGated(s: Session, prompt: string, req: Request, releases: nat, k: int, cfg: Config, orc: Oracle,
                          w: World)
    requires Sound(cfg.thresholds) && cfg.thresholds.stepCount == Some(k) && s.sessionMode == Steward
    requires Gated(s, releases, k)
    ensures Gated(RunTurnSpec(s, prompt, req, cfg, Steward, orc, w).session, releases, k)
    ensures RunTurnSpec(s, prompt, req, cfg, Steward, orc, w).session.sessionMode == Steward
  {
    hide TurnTask, WithAttachment;
    if s.status == Active {
      FiresAtTheBoundary(s.turnCount, k, releases);
    }
  }

  lemma ApplyKeepsGated(s: Session, releases: nat, a: Action, k: int, cfg: Config, orc: Oracle)
    requires Sound(cfg.thresholds) && cfg.thresholds.stepCount == Some(k) && s.sessionMode == Steward
    requires Gated(s, releases, k)
    ensures Gated(Apply(s, a, cfg, orc).session,
                  if a.Turn? && Releases(s, a.req) then releases + 1 else releases, k)
    ensures Apply(s, a, cfg, orc).session.sessionMode == Steward
  {
    hide RunTurnSpec;
    match a
    case Turn(req, w) =>
      if Releases(s, req) {
        assert k * (releases + 2) == k * (releases + 1) + k;
        RunTurnKeepsGated(s.(status := Active), if req.prompt.Str? then req.prompt.text else "", req, releases + 1,
                          k, cfg, orc, w);
      } else {
        RunTurnKeepsGated(s, if req.prompt.Str? then req.prompt.text else "", req, releases, k, cfg, orc, w);
      }
    case DirectTurn(prompt, req, w) =>
      RunTurnKeepsGated(s, prompt, req, releases, k, cfg, orc, w);
    case Close(_, _) =>
  }

  lemma {:induction false} RunAllKeepsGated(s: Session, releases: nat, actions: seq<Action>, k: int, cfg: Config,
                                            orc: Oracle)
    requires Sound(cfg.thresholds) && cfg.thresholds.stepCount == Some(k) && s.sessionMode == Steward
    requires Gated(s, releases, k)
    ensures Gated(RunAll(s, actions, cfg, orc), releases + ReleaseCount(s, actions, cfg, orc), k)
    decreases |actions|
  {
    hide Apply, Gated;
    if actions != [] {
      ApplyKeepsGated(s, releases, actions[0], k, cfg, orc);
      var next := if actions[0].Turn? && Releases(s, actions[0].req) then releases + 1 else releases;
      RunAllKeepsGated(Apply(s, actions[0], cfg, orc).session, next, actions[1..], k, cfg, orc);
    }
  }

  /** In steward mode with a step count of k, a human releases the session at least every k turns:
      an active session has been released turn_count / k times, a paused one stands exactly at the
      next multiple of k, and no session ever gets past it. */
  lemma HumanReleasesEveryKTurns(id: string, max: int, now: string, actions: seq<Action>, k: int, cfg: Config,
                                 orc: Oracle)
    requires Sound(cfg.thresholds) && cfg.thresholds.stepCount == Some(k)
    ensures var start := NewSession(id, Steward, max, now);
            var s := RunAll(start, actions, cfg, orc);
            var releases := ReleaseCount(start, actions, cfg, orc);
            && (s.status == Active ==> releases == s.turnCount / k)
            && (s.status == Paused ==> s.turnCount == k * (releases + 1))
            && s.turnCount <= k * (releases + 1)
  {
    var start := NewSession(id, Steward, max, now);
    RunAllKeepsGated(start, 0, actions, k, cfg, orc);
    var s, releases := RunAll(start, actions, cfg, orc), ReleaseCount(start, actions, cfg, orc);
    if s.status == Active {
      FiresAtTheBoundary(s.turnCount, k, releases);
    }
  }

  lemma UngatedTurnNeverPauses(s: Session, prompt: string, req: Request, cfg: Config, orc: Oracle, w: World)
    requires Sound(cfg.thresholds) && s.status != Paused
    requires s.sessionMode == Work || cfg.thresholds.stepCount == None
    ensures var t := RunTurnSpec(s, prompt, req, cfg, s.sessionMode, orc, w).session;
            t.status != Paused && t.sessionMode == s.sessionMode
  {
    hide TurnTask, WithAttachment;
  }

  lemma UngatedActionNeverPauses(s: Session, a: Action, cfg: Config, orc: Oracle)
    requires Sound(cfg.thresholds) && s.status != Paused
    requires s.sessionMode == Work || cfg.thresholds.stepCount == None
    ensures var t := Apply(s, a, cfg, orc).session; t.status != Paused && t.sessionMode == s.sessionMode
  {
    hide RunTurnSpec;
    match a
    case Turn(req, w) => UngatedTurnNeverPauses(s, if req.prompt.Str? then req.prompt.text else "", req, cfg, orc, w);
    case DirectTurn(prompt, req, w) => UngatedTurnNeverPauses(s, prompt, req, cfg, orc, w);
    case Close(_, _) =>
  }

  /** In work mode, or without a step count, no run of actions ever pauses a session. */
  lemma {:induction false} UngatedNeverPauses(s: Session, actions: seq<Action>, cfg: Config, orc: Oracle)
    requires Sound(cfg.thresholds) && s.status != Paused
    requires s.sessionMode == Work || cfg.thresholds.stepCount == None
    ensures RunAll(s, actions, cfg, orc).status != Paused
    decreases |actions|
  {
    hide Apply;
    if actions != [] {
      UngatedActionNeverPauses(s, actions[0], cfg, orc);
      UngatedNeverPauses(Apply(s, actions[0], cfg, orc).session, actions[1..], cfg, orc);
    }
  }

  // ---- On disk ---------------------------------------------------------------------------

  /** One action on the stored session: load, act, and store if the handler stores. */
  function ApplyStored(files: Files, id: string, a: Action, cfg: Config, orc: Oracle): Files
    requires Sound(cfg.thresholds)
  {
    match LoadSpec(files, id)
    case Err(_) => files
    case Ok(s) => Stored(files, Apply(s, a, cfg, orc))
  }

  function RunAllStored(files: Files, id: string, actions: seq<Action>, cfg: Config, orc: Oracle): Files
    requires Sound(cfg.thresholds)
    decreases |actions|
  {
    if actions == [] then files
    else RunAllStored(ApplyStored(files, id, actions[0], cfg, orc), id, actions[1..], cfg, orc)
  }

  lemma ApplyKeepsTheId(s: Session, a: Action, cfg: Config, orc: Oracle)
    requires Sound(cfg.thresholds)
    ensures var h := Apply(s, a, cfg, orc);
            h.session.sessionId == s.sessionId && (!h.saved ==> h.session == s)
  {
    hide TurnTask, WithAttachment, Check;
  }

  /** Going through the session file before and after every action changes nothing: what is loaded after
      a run of actions is the session the actions lead to, and other sessions' files are left alone. */
  lemma {:induction false} StoredSessionFollows(files: Files, s: Session, actions: seq<Action>, cfg: Config,
                                                orc: Oracle)
    requires Sound(cfg.thresholds) && LoadSpec(files, s.sessionId) == Ok(s)
    ensures var after := RunAllStored(files, s.sessionId, actions, cfg, orc);
            && LoadSpec(after, s.sessionId) == Ok(RunAll(s, actions, cfg, orc))
            && after.Keys == files.Keys
            && forall other | other in files && other != s.sessionId :: after[other] == files[other]
    decreases |actions|
  {
    hide Deserialise, Serialise, Apply;
    if actions != [] {
      var h := Apply(s, actions[0], cfg, orc);
      ApplyKeepsTheId(s, actions[0], cfg, orc);
      SaveLoad(h.session);
      StoredSessionFollows(Stored(files, h), h.session, actions[1..], cfg, orc);
    }
  }
}
