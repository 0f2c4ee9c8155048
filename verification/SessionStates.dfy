/** The control-plane snapshot of one run (io_iii/core/session_state.py). */
module SessionStates {
  import opened Values
  import Runbooks

  datatype SessionMode = Work | Steward

  datatype RouteInfo = RouteInfo(
    mode: string,
    primaryTarget: Option<string>,
    secondaryTarget: Option<string>,
    selectedTarget: Option<string>,
    selectedProvider: string,
    fallbackUsed: bool,
    fallbackReason: Option<string>)

  /** The verdict is untyped: it is whatever the challenger's JSON holds under "verdict". */
  datatype AuditGateState = AuditGateState(
    auditEnabled: bool,
    auditPasses: int,
    revisionPasses: int,
    auditVerdict: Value,
    revised: bool)

  datatype SessionState = SessionState(
    requestId: string,
    startedAtMs: int,
    schemaVersion: string,
    latencyMs: Option<int>,
    mode: string,
    route: Option<RouteInfo>,
    audit: AuditGateState,
    status: string,
    provider: string,
    model: Option<string>,
    routeId: string,
    taskSpecId: Option<Value>,
    errorCode: Option<string>,
    sessionMode: SessionMode)

  const MAX_AUDIT_PASSES := 1
  const MAX_REVISION_PASSES := 1

  /** `validate_session_state`: true when it returns, false when it raises ValueError. */
  predicate ValidState(s: SessionState) {
    && s.schemaVersion == "v1"
    && s.requestId != ""
    && s.startedAtMs >= 0
    && (s.latencyMs.Some? ==> s.latencyMs.value >= 0)
    && s.status in {"ok", "error"}
    && (s.status == "error" ==> s.errorCode.Some? && s.errorCode.value != "")
    && (s.taskSpecId.Some? ==> IsNonBlank(s.taskSpecId.value))
    && 0 <= s.audit.auditPasses <= MAX_AUDIT_PASSES
    && 0 <= s.audit.revisionPasses <= MAX_REVISION_PASSES
    && (s.route.Some? ==> s.route.value.mode == s.mode && s.route.value.selectedProvider != "")
  }

  predicate IsNonBlank(v: Value) {
    v.Str? && Runbooks.Strip(v.text) != ""
  }
}
