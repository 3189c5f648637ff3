/** The refusals the control plane answers with, and the provider-independent resize rule. */
module Domain {
  import opened Prelude
  import opened SagaEngine

  datatype DomainError =
    | ProjectNotFound | ProjectAccessDenied | ProfileDisabled | ValidationFailed | QuotaExceeded
    | InstanceNotFound | InstanceBusy | IdempotencyConflict | DiskShrinkForbidden
    | SnapshotNotFound | SnapshotOwnershipMismatch | StoreConstraint

  /** A resize may grow the disk or keep it, and must change something. */
  function ValidateResize(current: Sizing, target: Sizing): Option<DomainError> {
    if target.disk < current.disk then Some(DiskShrinkForbidden)
    else if target == current then Some(ValidationFailed)
    else None
  }
}
