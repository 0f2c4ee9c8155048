/** What the layers above see of one orchestrated run: a call that takes the world and a
    task and gives a new world with a result, or with an exception that may carry a
    failure envelope. */
module Oracles {
  import opened Values
  import opened SessionStates
  import opened Runbooks

  /** Everything outside the runtime. */
  type World(!new)

  /** The parts of the failure envelope that the callers read (io_iii/core/failure_model.py). */
  datatype RuntimeFailure = RuntimeFailure(kind: string, code: string, requestId: string, taskSpecId: Option<Value>)

  datatype AuditMeta = AuditMeta(auditUsed: bool, auditVerdict: Value, revised: bool)

  datatype ExecutionResult = ExecutionResult(
    message: string,
    provider: string,
    model: Option<string>,
    routeId: string,
    auditMeta: Option<AuditMeta>,
    promptHash: Option<string>,
    capability: Option<Value>)

  datatype Reply =
    | Returned(world: World, state: SessionState, result: ExecutionResult)
    | Raised(world: World, failure: Option<RuntimeFailure>)

  type Oracle = (World, TaskSpec) -> Reply
}
