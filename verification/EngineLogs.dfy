/** The bounded log of engine lifecycle events (io_iii/core/engine_observability.py). */
module EngineLogs {
  import opened Values
  import opened ContentSafety

  datatype EngineEventKind =
    | RunStarted
    | RouteResolved
    | ProviderExecutionComplete
    | ChallengerAuditComplete
    | RevisionComplete
    | OutputEmitted
    | RunComplete
    | RunFailed

  datatype EngineEvent = EngineEvent(kind: EngineEventKind, requestId: string, taskSpecId: Option<Value>,
                                     meta: map<Key, Value>)

  const MAX_EVENTS := 16

  function Kinds(events: seq<EngineEvent>): seq<EngineEventKind> {
    seq(|events|, i requires 0 <= i < |events| => events[i].kind)
  }

  class EngineObservabilityLog {
    var events: seq<EngineEvent>

    constructor ()
      ensures events == []
    {
      events := [];
    }

    /** `emit`: false when it raises, because the log is full or the metadata holds a forbidden key. */
    method Emit(kind: EngineEventKind, requestId: string, taskSpecId: Option<Value>, meta: map<Key, Value>)
      returns (ok: bool)
      modifies this
      ensures ok <==> |old(events)| < MAX_EVENTS && Clean(Dict(meta), DEFAULT_FORBIDDEN_KEYS)
      ensures events == if ok then old(events) + [EngineEvent(kind, requestId, taskSpecId, meta)] else old(events)
    {
      if |events| >= MAX_EVENTS {
        return false;
      }
      ok := AssertNoForbiddenKeys(Dict(meta), DEFAULT_FORBIDDEN_KEYS);
      if ok {
        events := events + [EngineEvent(kind, requestId, taskSpecId, meta)];
      }
    }
  }
}
