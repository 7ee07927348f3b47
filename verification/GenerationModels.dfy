/** Records of the generation workflow: operation, batch, job and outbox, with their status tables. */
module GenerationModels {
  import opened Basics
  import Billing

  type Id = string

  datatype JobStatus = Queued | Running | WaitingProvider | Finalizing | RetryWait | Succeeded | Failed | Cancelled

  datatype BatchStatus =
    | BatchWaiting | BatchFinalizing | BatchCancelling
    | BatchCompleted | BatchPartialFailed | BatchFailed | BatchCancelled

  datatype OperationStatus = OpWaiting | OpCompleted | OpPartialFailed | OpFailed | OpCancelled

  datatype Phase = ProviderSubmit | ProviderPoll | ArtifactFinalize | BillingCharge | CompensationPhase

  datatype CompStatus = NotRequired | CompPending | CompRunning | CompRetryWait | CompCompleted | ManuallyFinal

  datatype BillingStatus = NotStarted | Charging | Charged | ChargeFailed

  datatype CompletionPolicy = AllRequired | AllowPartial | MinSuccess(minimum: int)

  datatype Stage = NoStage | ProviderStage | ArtifactStage | BillingStage | BindingStage | OtherStage(name: string)

  datatype Disposition = NoDisposition | BoundCandidate | BoundActive | Superseded | Orphaned

  const DEFAULT_MAX_POLLS := 120

  predicate TerminalJob(s: JobStatus) { s.Succeeded? || s.Failed? || s.Cancelled? }

  predicate TerminalBatch(s: BatchStatus) {
    s.BatchCompleted? || s.BatchPartialFailed? || s.BatchFailed? || s.BatchCancelled?
  }

  predicate TerminalOperation(s: OperationStatus) { !s.OpWaiting? }

  /** The job transition table; staying put is not a transition. */
  predicate JobTransition(from: JobStatus, to: JobStatus) {
    match from
    case Queued => to.Running? || to.Cancelled? || to.Failed?
    case Running => to.WaitingProvider? || to.Finalizing? || to.RetryWait? || to.Failed? || to.Cancelled?
    case WaitingProvider => to.Running? || to.Finalizing? || to.RetryWait? || to.Failed? || to.Cancelled?
    case Finalizing => to.RetryWait? || to.Succeeded? || to.Failed? || to.Cancelled?
    case RetryWait => to.Running? || to.Finalizing? || to.Failed? || to.Cancelled?
    case _ => false
  }

  predicate BatchTransition(from: BatchStatus, to: BatchStatus) {
    match from
    case BatchWaiting => to.BatchFinalizing? || to.BatchCancelling? || TerminalBatch(to)
    case BatchFinalizing => to.BatchCancelling? || TerminalBatch(to)
    case BatchCancelling => to.BatchCancelled? || to.BatchCompleted? || to.BatchPartialFailed?
    case _ => false
  }

  predicate OperationTransition(from: OperationStatus, to: OperationStatus) {
    from.OpWaiting? && TerminalOperation(to)
  }

  /** Statuses whose changes are announced to the session. */
  predicate PublicStatus(s: JobStatus) { !s.Queued? }

  /** What the provider reported once; recorded at most once per job. */
  datatype Usage = Usage(reported: bool, points: int, breakdown: Billing.Breakdown)

  /** The frozen price of a job. */
  datatype Quote = Quote(points: int, breakdown: Billing.Breakdown)

  /** What creation fixes about a job. */
  datatype JobSpec = JobSpec(
    id: Id, batch: Id, operation: Id, user: Billing.UserId, required: bool,
    maxAttempts: int, maxPolls: int, bindActive: bool)

  datatype Schedule = Schedule(retryCount: int, attempt: int, polls: int, nextRunAt: Option<int>)

  datatype Lease = Lease(owner: string, until: Option<int>)

  datatype Money = Money(
    status: BillingStatus, key: Option<Billing.Key>, txn: Option<Billing.TxnId>,
    charged: int, compensated: int, net: int, breakdown: Billing.Breakdown,
    refund: Option<Billing.TxnId>, balanceAfter: Option<int>)

  datatype Fault = Fault(stage: Stage, code: string, retryable: bool)

  datatype Job = Job(
    spec: JobSpec, status: JobStatus, phase: Phase, version: int,
    sched: Schedule, lease: Lease, task: string, assets: seq<string>, disposition: Disposition,
    usage: Option<Usage>, quote: Option<Quote>, money: Money, comp: CompStatus,
    cancelRequested: bool, fault: Fault,
    updatedAt: int, startedAt: Option<int>, terminalAt: Option<int>)

  const NO_LEASE := Lease("", None)
  const NO_FAULT := Fault(NoStage, "", false)

  predicate Terminal(job: Job) { TerminalJob(job.status) }

  /** The idempotency key every charge of this job carries. */
  function ChargeKeyOf(job: Job): Billing.Key {
    if job.money.key.Some? then job.money.key.value else Billing.ChargeKey(job.spec.id)
  }

  /** Everything a version number stands for: all fields but the lease expiry and the update time. */
  function Stamped(job: Job): Job {
    job.(lease := job.lease.(until := None), updatedAt := 0)
  }

  /** A recorded charge that still waits for its refund. */
  predicate Unsettled(job: Job) {
    job.money.txn.Some? && (job.comp.CompPending? || job.comp.CompRunning? || job.comp.CompRetryWait?)
  }

  datatype Tally = Tally(required: int, optional: int, succeeded: int, failed: int, cancelled: int)

  datatype Cost = Cost(gross: int, refunded: int, net: int, breakdown: Billing.Breakdown, balanceAfter: Option<int>)

  const NO_COST := Cost(0, 0, 0, map[], None)

  datatype JobResult = JobResult(
    id: Id, status: JobStatus, disposition: Disposition, assets: seq<string>, code: string,
    gross: int, refunded: int, net: int)

  /** The snapshot the barrier publishes when it ends a batch. */
  datatype Ending = Ending(batch: Id, operation: Id, version: int, status: BatchStatus, cost: Cost, jobs: seq<JobResult>)

  datatype Batch = Batch(
    id: Id, operation: Id, policy: CompletionPolicy, status: BatchStatus, cancelRequested: bool,
    tally: Tally, cost: Cost, version: int, terminalAt: Option<int>)

  datatype Operation = Operation(
    id: Id, batch: Id, key: string, fingerprint: string, status: OperationStatus, version: int,
    result: Option<Ending>, terminalAt: Option<int>)

  /** Why a barrier pass is requested. */
  datatype Trigger = BecameTerminal | Settled

  /** The producer keys of outbox rows. */
  datatype OutboxKey =
    | OperationAccepted(operation: Id)
    | OperationCancelRequested(operation: Id)
    | JobDispatch(job: Id)
    | JobPoll(job: Id, version: int)
    | JobRetry(job: Id, version: int)
    | JobLifecycle(job: Id, version: int)
    | JobSucceeded(job: Id)
    | JobFailed(job: Id, code: string)
    | JobCancelled(job: Id)
    | JobCancelRequested(job: Id)
    | CompensationRequested(job: Id, txn: Option<Billing.TxnId>)
    | CompensationRetry(job: Id, retry: int)
    | CompensationFailed(job: Id, txn: Option<Billing.TxnId>)
    | CompensationCompleted(job: Id, refund: Billing.TxnId)
    | CompensationManual(job: Id)
    | JobWake(job: Id, trigger: Trigger)
    | CancelWake(batch: Id)
    | BatchEnded(batch: Id)

  datatype Destination = MediaJobs | SessionSignals | BillingCompensation

  /** Event types, as far as consumers tell them apart. */
  datatype EventKind =
    | OperationEvent      // operation.accepted, operation.cancel_requested
    | JobEvent            // job.*
    | BillingEvent        // billing.*
    | FinalizeRequested   // batch.finalize_requested
    | BatchEvent          // batch.<terminal status>

  datatype Event = Event(
    key: OutboxKey, kind: EventKind, destination: Destination,
    job: Id, batch: Id, availableAt: Option<int>, ending: Option<Ending>)

  datatype RowStatus = RowPending | RowPublished | RowDead

  datatype Row = Row(event: Event, status: RowStatus, attempts: int, availableAt: int)

  type Outbox = map<OutboxKey, Row>

  /** The lifecycle signal that every public status change must leave behind. */
  predicate SignalsJob(e: Event) { e.destination.SessionSignals? && e.kind.JobEvent? }

  function Power2(n: nat): int { if n == 0 then 1 else 2 * Power2(n - 1) }

  /** Exponential backoff in seconds, clamped to 1..128. */
  function RetryBackoff(attempt: int): int {
    Power2((if attempt < 1 then 1 else if attempt > 8 then 8 else attempt) - 1)
  }
}
