/** Plans, jobs, conflicts and the runtime events the transfer store reduces. */
module Transfers {
  import opened Common
  import opened IdMatching

  type PlanId = nat
  type RequestId = nat

  datatype PlanState = PlanQueued | PlanPlanning | PlanCompleted | PlanCancelled | PlanFailed(error: UserFacingError)

  datatype JobState =
    | Queued
    | Planning
    | WaitingForConflict(planId: PlanId, requestId: RequestId)
    | Running(bytesDone: nat, bytesTotal: Option<nat>, startedAt: Timestamp)
    | Cancelling
    | Completed
    | Skipped
    | Failed(error: UserFacingError, retryable: bool)

  datatype Warning = Warning(transferId: TransferId, code: ErrorCode, message: string, detail: Option<string>)

  datatype Job = Job(
    id: TransferId,
    direction: Direction,
    source: Endpoint,
    destination: Endpoint,
    state: JobState,
    metadataPolicy: MetadataPolicy,
    conflictPolicy: ConflictPolicy,
    warnings: seq<Warning>,
    createdAt: Timestamp)

  datatype Plan = Plan(
    id: PlanId,
    rootJobId: TransferId,
    sourceRoot: Endpoint,
    destinationRoot: Endpoint,
    state: PlanState,
    plannedCount: nat,
    totalBytes: Option<nat>,
    childJobs: seq<TransferId>,
    conflictPolicy: ConflictPolicy)

  datatype Conflict = Conflict(
    id: RequestId,
    planId: PlanId,
    transferId: TransferId,
    source: Endpoint,
    destination: Endpoint,
    sourceSize: Option<nat>,
    sourceModifiedAt: Option<Timestamp>,
    detectedAt: Timestamp)

  datatype Event =
    | PlanStartedEvent(plan: Plan, rootJob: Job)
    | PlanProgressEvent(planId: PlanId, childJobs: seq<Job>, plannedCount: nat, totalBytes: Option<nat>)
    | PlanCompletedEvent(planId: PlanId)
    | PlanCancelledEvent(planId: PlanId)
    | PlanFailedEvent(planId: PlanId, error: UserFacingError)
    | RunningEvent(job: Job)
    | ConflictEvent(requestId: RequestId, conflictPlan: PlanId, transferId: TransferId, source: Endpoint,
                    destination: Endpoint, sourceSize: Option<nat>, sourceModifiedAt: Option<Timestamp>)
    | ProgressEvent(transferId: TransferId, bytesDone: nat, bytesTotal: Option<nat>)
    | WarningEvent(warning: Warning)
    | CompletedEvent(transferId: TransferId)
    | SkippedEvent(transferId: TransferId)
    | FailedEvent(transferId: TransferId, error: UserFacingError)

  predicate IsPlanEvent(e: Event) {
    e.PlanStartedEvent? || e.PlanProgressEvent? || e.PlanCompletedEvent? || e.PlanCancelledEvent? || e.PlanFailedEvent?
  }

  predicate PlanTerminal(state: PlanState) {
    state.PlanCompleted? || state.PlanCancelled? || state.PlanFailed?
  }

  predicate JobTerminal(state: JobState) {
    state.Completed? || state.Skipped? || state.Failed?
  }

  /** The order plan states climb in. */
  function Rank(state: PlanState): nat {
    match state
    case PlanPlanning => 0
    case PlanQueued => 1
    case PlanCompleted => 2
    case PlanCancelled => 3
    case PlanFailed(_) => 4
  }

  /** The error a plan takes when some of its children failed. */
  const SOME_FILES_FAILED := UserFacingError(
    Unknown, "Transfer finished with failures", "Some files could not be transferred.", None, false)

  function NewConflict(e: Event, now: Timestamp): Conflict
    requires e.ConflictEvent?
  {
    Conflict(e.requestId, e.conflictPlan, e.transferId, e.source, e.destination, e.sourceSize, e.sourceModifiedAt, now)
  }
}
