/**
 Every mutation that workers, the finalizer and the compensation service apply to a stored job,
 one constructor per closure passed to `MutateJob`.
 */
module JobMutations {
  import opened Basics
  import opened GenerationModels
  import Billing

  datatype ProviderResult = ProviderResult(task: string, assets: seq<string>, usage: Usage)

  /** A classified failure of an external call. */
  datatype Failure = Failure(stage: Stage, code: string, retryable: bool)

  datatype CommitAnswer = CommitOk | CommitRefused(failure: Failure)

  datatype WorkerMutation =
    | Submit(owner: string, until: int)
    | Poll(owner: string, until: int)
    | Wait(task: string, delay: int)
    | Complete(result: ProviderResult, owner: string, until: int)
    | CancelClaim(owner: string, until: int)
    | CancelJob(code: string)
    | RecoverComplete(result: ProviderResult, owner: string, until: int)
    | RecoverPartial(assets: seq<string>)
    | ProviderRetry(code: string)
    | FailProvider(code: string)
    | ClaimFinalization(owner: string, until: int)

  datatype FinalMutation =
    | BeginFinalize(result: ProviderResult)
    | FreezeQuote(quote: Quote)
    | RecordAssets(assets: seq<string>)
    | BeginCharge(key: Billing.Key)
    | RecordCharge(txn: Billing.TxnId, points: int, breakdown: Billing.Breakdown, balance: int)
    | Commit(assets: seq<string>, answer: CommitAnswer)
    | CompleteReceipt(assets: seq<string>)
    | FailWithoutCharge(disposition: Disposition, code: string)
    | FailAfterCharge(targetExists: bool)
    | CancelBeforeCommit
    | ScheduleRetry(stage: Stage, code: string)
    | FailPermanent(stage: Stage, code: string)

  datatype CompMutation =
    | ClaimCompensation(owner: string, until: int)
    | RetryCompensation
    | GiveUpCompensation
    | CompleteCompensation(points: int, refund: Billing.TxnId, balance: int)
    | FinalizeManually(points: int, manualRefund: Option<Billing.TxnId>)

  datatype Mutation = ByWorker(w: WorkerMutation) | ByFinalizer(f: FinalMutation) | ByCompensation(c: CompMutation)

  datatype MutationError = CancellationWon | CommitFailed(failure: Failure) | DifferentTransaction

  /** A mutated job and the events to commit with it. */
  datatype Change = Change(job: Job, events: seq<Event>)

  type Mutated = Result<Change, MutationError>

  const COMPENSATION_FAILED := "compensation_failed"

  function ValueOr(value: string, fallback: string): string { if value == "" then fallback else value }

  function JobEventFor(key: OutboxKey, job: Job): Event {
    Event(key, JobEvent, SessionSignals, job.spec.id, job.spec.batch, None, None)
  }

  function DispatchFor(key: OutboxKey, job: Job): Event {
    Event(key, JobEvent, MediaJobs, job.spec.id, job.spec.batch, job.sched.nextRunAt, None)
  }

  function BillingEventFor(key: OutboxKey, destination: Destination, job: Job, at: Option<int>): Event {
    Event(key, BillingEvent, destination, job.spec.id, job.spec.batch, at, None)
  }

  /** `newBatchFinalizeRequestedEvent` */
  function WakeFor(job: Job, trigger: Trigger): Event {
    Event(JobWake(job.spec.id, trigger), FinalizeRequested, SessionSignals, job.spec.id, job.spec.batch, None, None)
  }

  /** Usage is written once and never again. */
  function RecordUsage(job: Job, usage: Usage): Option<Usage> {
    if job.usage.Some? then job.usage
    else Some(usage.(reported := usage.reported || usage.points != 0 || |usage.breakdown| > 0))
  }

  function Retried(job: Job, stage: Stage, code: string, now: int): Job {
    var n := job.sched.retryCount + 1;
    job.(status := RetryWait, fault := Fault(stage, code, true),
         sched := job.sched.(retryCount := n, nextRunAt := Some(now + RetryBackoff(n))), lease := NO_LEASE)
  }

  function ApplyWorker(m: WorkerMutation, job: Job, now: int): Mutated {
    match m
    case Submit(owner, until) =>
      Ok(Change(job.(status := Running, phase := ProviderSubmit, lease := Lease(owner, Some(until)),
                     sched := job.sched.(attempt := job.sched.attempt + 1), fault := job.fault.(retryable := false)), []))
    case Poll(owner, until) =>
      Ok(Change(job.(status := Running, phase := ProviderPoll, lease := Lease(owner, Some(until)),
                     sched := job.sched.(attempt := job.sched.attempt + 1, polls := job.sched.polls + 1),
                     fault := job.fault.(retryable := false)), []))
    case Wait(task, delay) =>
      var job' := job.(status := WaitingProvider, phase := ProviderPoll, task := task, lease := NO_LEASE,
                       sched := job.sched.(nextRunAt := Some(now + delay)));
      Ok(Change(job', [DispatchFor(JobPoll(job.spec.id, job.version + 1), job')]))
    case Complete(result, owner, until) =>
      Ok(Change(job.(status := Finalizing, phase := ArtifactFinalize, task := ValueOr(result.task, job.task),
                     assets := result.assets, usage := RecordUsage(job, result.usage),
                     lease := Lease(owner, Some(until))), []))
    case CancelClaim(owner, until) =>
      Ok(Change(job.(status := Running, phase := ProviderPoll, lease := Lease(owner, Some(until))), []))
    case CancelJob(code) =>
      var job' := job.(status := Cancelled, fault := job.fault.(code := code), comp := NotRequired, lease := NO_LEASE);
      Ok(Change(job', [JobEventFor(JobCancelled(job.spec.id), job'), WakeFor(job', BecameTerminal)]))
    case RecoverComplete(result, owner, until) =>
      Ok(Change(job.(status := Finalizing, phase := ArtifactFinalize, assets := result.assets,
                     usage := RecordUsage(job, result.usage), lease := Lease(owner, Some(until))), []))
    case RecoverPartial(assets) => Ok(Change(job.(assets := assets), []))
    case ProviderRetry(code) =>
      var job' := Retried(job, ProviderStage, code, now);
      Ok(Change(job', [DispatchFor(JobRetry(job.spec.id, job.version + 1), job')]))
    case FailProvider(code) =>
      var job' := job.(status := Failed, fault := Fault(ProviderStage, code, false), comp := NotRequired, lease := NO_LEASE);
      Ok(Change(job', [JobEventFor(JobFailed(job.spec.id, code), job'), WakeFor(job', BecameTerminal)]))
    case ClaimFinalization(owner, until) =>
      Ok(Change(job.(status := Finalizing, lease := Lease(owner, Some(until))), []))
  }

  function Delivered(job: Job, assets: seq<string>): Change {
    var job' := job.(status := Succeeded, phase := ArtifactFinalize, assets := assets,
                     disposition := if job.spec.bindActive then BoundActive else BoundCandidate,
                     comp := NotRequired, lease := NO_LEASE, fault := job.fault.(stage := NoStage, code := ""));
    Change(job', [JobEventFor(JobSucceeded(job.spec.id), job'), WakeFor(job', BecameTerminal)])
  }

  function ApplyFinal(m: FinalMutation, job: Job, now: int): Mutated {
    match m
    case BeginFinalize(result) =>
      Ok(Change(job.(status := Finalizing, phase := ArtifactFinalize, task := ValueOr(result.task, job.task),
                     usage := RecordUsage(job, result.usage)), []))
    case FreezeQuote(quote) =>
      Ok(Change(if job.quote.Some? then job else job.(quote := Some(quote)), []))
    case RecordAssets(assets) => Ok(Change(job.(assets := assets), []))
    case BeginCharge(key) =>
      Ok(Change(job.(phase := BillingCharge, money := job.money.(status := Charging, key := Some(key))), []))
    case RecordCharge(txn, points, breakdown, balance) =>
      if job.money.txn.Some? && job.money.txn.value != txn then Err(DifferentTransaction)
      else Ok(Change(job.(money := job.money.(status := Charged, txn := Some(txn), charged := points, net := points,
                                              breakdown := breakdown, balanceAfter := Some(balance))), []))
    case Commit(assets, answer) =>
      if job.cancelRequested then Err(CancellationWon)
      else if answer.CommitRefused? then Err(CommitFailed(answer.failure))
      else Ok(Delivered(job, assets))
    case CompleteReceipt(assets) => Ok(Delivered(job, assets))
    case FailWithoutCharge(disposition, code) =>
      var job' := job.(status := Failed, disposition := disposition,
                       fault := job.fault.(stage := BindingStage, code := code), comp := NotRequired, lease := NO_LEASE);
      Ok(Change(job', [JobEventFor(JobFailed(job.spec.id, code), job'), WakeFor(job', BecameTerminal)]))
    case FailAfterCharge(targetExists) =>
      var job' := job.(status := if job.cancelRequested then Cancelled else Failed,
                       fault := job.fault.(stage := BindingStage,
                         code := if job.cancelRequested then "cancelled_after_charge" else "binding_conflict_after_charge"),
                       disposition := if targetExists then Superseded else Orphaned,
                       comp := CompPending, lease := NO_LEASE);
      Ok(Change(job', [BillingEventFor(CompensationRequested(job.spec.id, job.money.txn), BillingCompensation, job', None),
                       WakeFor(job', BecameTerminal)]))
    case CancelBeforeCommit =>
      var job' := job.(status := Cancelled, fault := job.fault.(code := "cancelled_by_user"),
                       comp := NotRequired, lease := NO_LEASE);
      Ok(Change(job', [JobEventFor(JobCancelled(job.spec.id), job'), WakeFor(job', BecameTerminal)]))
    case ScheduleRetry(stage, code) => Ok(Change(Retried(job, stage, code, now), []))
    case FailPermanent(stage, code) =>
      var job' := job.(status := Failed, fault := Fault(stage, code, false), comp := NotRequired, lease := NO_LEASE,
                       money := if stage.BillingStage? then job.money.(status := ChargeFailed) else job.money);
      Ok(Change(job', [JobEventFor(JobFailed(job.spec.id, code), job'), WakeFor(job', BecameTerminal)]))
  }

  function ApplyComp(m: CompMutation, job: Job, now: int): Mutated {
    match m
    case ClaimCompensation(owner, until) =>
      Ok(Change(job.(comp := CompRunning, phase := CompensationPhase, lease := Lease(owner, Some(until))), []))
    case RetryCompensation =>
      var n := job.sched.retryCount + 1;
      var at := now + RetryBackoff(n);
      var job' := job.(comp := CompRetryWait, phase := CompensationPhase, fault := Fault(BillingStage, COMPENSATION_FAILED, true),
                       sched := job.sched.(retryCount := n, nextRunAt := Some(at)), lease := NO_LEASE);
      Ok(Change(job', [BillingEventFor(CompensationRetry(job.spec.id, n), BillingCompensation, job', Some(at))]))
    case GiveUpCompensation =>
      var job' := job.(comp := CompPending, phase := CompensationPhase, fault := Fault(BillingStage, COMPENSATION_FAILED, false),
                       sched := job.sched.(nextRunAt := None), lease := NO_LEASE);
      Ok(Change(job', [BillingEventFor(CompensationFailed(job.spec.id, job.money.txn), SessionSignals, job', None)]))
    case CompleteCompensation(points, refund, balance) =>
      var job' := job.(comp := CompCompleted, fault := job.fault.(retryable := false), lease := NO_LEASE,
                       money := job.money.(compensated := points, net := job.money.charged - points,
                                           refund := Some(refund), balanceAfter := Some(balance)));
      Ok(Change(job', [BillingEventFor(CompensationCompleted(job.spec.id, refund), SessionSignals, job', None),
                       WakeFor(job', Settled)]))
    case FinalizeManually(points, manualRefund) =>
      var job' := job.(comp := ManuallyFinal, fault := job.fault.(retryable := false),
                       sched := job.sched.(nextRunAt := None),
                       money := job.money.(compensated := points, net := job.money.charged - points, refund := manualRefund));
      Ok(Change(job', [BillingEventFor(CompensationManual(job.spec.id), SessionSignals, job', None),
                       WakeFor(job', Settled)]))
  }

  function Apply(m: Mutation, job: Job, now: int): Mutated {
    match m
    case ByWorker(w) => ApplyWorker(w, job, now)
    case ByFinalizer(f) => ApplyFinal(f, job, now)
    case ByCompensation(c) => ApplyComp(c, job, now)
  }
}
