/**
 Workers, the finalizer and the compensation service as programs that advance one atomic step at a time.
 Each program point keeps the job snapshot the code holds in its local variable, so that any other
 party may act between a read and the compare-and-swap that relies on it.
 */
module Workers {
  import opened Basics
  import opened GenerationModels
  import opened JobMutations
  import Billing

  datatype Call = SubmitCall(cancelling: bool) | PollCall | CancelCall

  /** Where a worker goes once its compare-and-swap has succeeded. */
  datatype Next =
    | ThenRoute
    | ThenCall(call: Call)
    | ThenCancel
    | ThenProviderError(failure: Failure)
    | ThenFinalize(result: ProviderResult)
    | ThenQuote(result: ProviderResult)
    | ThenQuoted(result: ProviderResult, attempt: nat)
    | ThenCheck(assets: seq<string>, quote: Quote)
    | ThenPay(assets: seq<string>, quote: Quote)
    | ThenRecheck(assets: seq<string>, quote: Quote, attempt: nat)
    | ThenDelivered
    | ThenDone

  /** Program points of `Process` and `Finalize`. */
  datatype Pc =
    | Loaded(job: Job)                                                   // due job read
    | Routing(job: Job)                                                  // receipt recovery done
    | Swapping(job: Job, mutation: Mutation, next: Next)                 // about to compare-and-swap
    | Calling(job: Job, call: Call)                                      // provider call in flight
    | ProviderError(job: Job, failure: Failure, recovered: bool)         // provider call failed
    | Entering(result: ProviderResult)                                   // Finalize, before its first read
    | Quoting(job: Job, result: ProviderResult)                          // price not frozen yet
    | QuoteRereading(result: ProviderResult, price: Quote, attempt: nat)
    | Reloading(result: ProviderResult, quote: Quote)
    | Inspecting(job: Job, result: ProviderResult, quote: Quote)         // was it already committed?
    | Checking(job: Job, assets: seq<string>, quote: Quote)              // first binding check
    | Paying(job: Job, assets: seq<string>, quote: Quote)                // about to call the ledger
    | ChargeRereading(charge: FinalMutation, assets: seq<string>, quote: Quote, attempt: nat)
    | Rechecking(job: Job, assets: seq<string>, quote: Quote)            // second binding check
    | CommitRereading(failure: Failure)
    | Finished
    | Aborted

  datatype ProviderState = Accepted | PendingState | CompletedState | FailedState | CancelledState | UnknownState

  datatype ProviderResponse = ProviderResponse(state: ProviderState, task: string, delay: int, result: ProviderResult)

  /** What the outside world answers at a program point. */
  datatype Answer =
    | RecoveryFailed
    | NothingRecovered
    | RecoveredPart(assets: seq<string>)
    | RecoveredAll(result: ProviderResult)
    | Registered(known: bool)
    | LeaseLost
    | Responded(response: ProviderResponse)
    | CallFailed(failure: Failure)
    | CancelAnswer(confirmed: bool)
    | Priced(price: Quote)
    | PriceFailed(failure: Failure)
    | InspectFailed
    | Committed
    | NotCommitted(persisted: Result<seq<string>, Failure>)
    | BindingFailed(failure: Failure)
    | NoGateway
    | Binding(targetExists: bool, matches: bool, commit: CommitAnswer)
    | Read

  const SETTLE_ATTEMPTS := 4
  const FINALIZE_FAILED := "finalize_failed"

  function End(job: Job, m: FinalMutation): Pc { Swapping(job, ByFinalizer(m), ThenDone) }

  function EndProvider(job: Job, m: WorkerMutation): Pc { Swapping(job, ByWorker(m), ThenDone) }

  // ---------------------------------------------------------------- failure plans

  /** `scheduleRetry` */
  function RetryPlan(job: Job, stage: Stage, code: string): FinalMutation {
    if job.spec.maxAttempts > 0 && job.sched.retryCount + 1 >= job.spec.maxAttempts then
      if stage.BindingStage? && job.money.txn.Some? then FailAfterCharge(true) else FailPermanent(stage, code)
    else ScheduleRetry(stage, code)
  }

  /** `handleFinalizeError` */
  function ErrorPlan(job: Job, f: Failure): FinalMutation {
    if f.retryable then RetryPlan(job, f.stage, f.code)
    else if job.money.txn.Some? then FailAfterCharge(true)
    else FailPermanent(f.stage, f.code)
  }

  /** `cancelBeforeCommit` */
  function CancelPlan(job: Job): FinalMutation {
    if job.money.txn.Some? then FailAfterCharge(true) else CancelBeforeCommit
  }

  /** What follows a rejected charge; the recorded transaction is not looked at. */
  function ChargeErrorPlan(job: Job, f: Failure): FinalMutation {
    if f.retryable then RetryPlan(job, f.stage, f.code) else FailPermanent(f.stage, f.code)
  }

  // ---------------------------------------------------------------- provider phase

  function PollPlan(job: Job, owner: string, until: int): Pc {
    if job.sched.polls >= job.spec.maxPolls then EndProvider(job, FailProvider("provider_poll_exhausted"))
    else Swapping(job, ByWorker(Poll(owner, until)), ThenCall(PollCall))
  }

  function CancellationPlan(job: Job, owner: string, until: int): Pc {
    if job.task == "" then EndProvider(job, CancelJob("cancelled_before_submit"))
    else Swapping(job, ByWorker(CancelClaim(owner, until)), ThenCall(CancelCall))
  }

  function ResultOfJob(job: Job): ProviderResult {
    ProviderResult(job.task, job.assets,
      if job.usage.Some? then job.usage.value
      else if job.money.status.Charged? then Usage(false, job.money.charged, job.money.breakdown)
      else Usage(false, 0, map[]))
  }

  predicate InFinalization(job: Job) {
    job.status.Finalizing? || (job.status.RetryWait? && (job.phase.ArtifactFinalize? || job.phase.BillingCharge?))
  }

  /** The dispatch of `Process` once receipts are recovered. */
  function Route(job: Job, known: bool, owner: string, until: int): Pc {
    if !known then EndProvider(job, FailProvider("provider_not_registered"))
    else if InFinalization(job) then Swapping(job, ByWorker(ClaimFinalization(owner, until)), ThenFinalize(ResultOfJob(job)))
    else if job.cancelRequested then
      if job.task == "" && job.sched.attempt > 0 then Swapping(job, ByWorker(Submit(owner, until)), ThenCall(SubmitCall(true)))
      else CancellationPlan(job, owner, until)
    else if job.task == "" then Swapping(job, ByWorker(Submit(owner, until)), ThenCall(SubmitCall(false)))
    else PollPlan(job, owner, until)
  }

  /** `applyProviderResponse` */
  function ApplyResponse(job: Job, r: ProviderResponse, cancelling: bool, owner: string, until: int): Pc {
    match r.state
    case CompletedState =>
      var result := r.result.(task := ValueOr(r.result.task, r.task));
      Swapping(job, ByWorker(Complete(result, owner, until)), ThenFinalize(result))
    case FailedState => EndProvider(job, FailProvider("provider_failed"))
    case CancelledState => EndProvider(job, CancelJob("provider_cancelled"))
    case UnknownState => EndProvider(job, FailProvider("provider_protocol_error"))
    case _ =>
      var task := ValueOr(r.task, job.task);
      if job.phase.ProviderPoll? && job.sched.polls >= job.spec.maxPolls then EndProvider(job, FailProvider("provider_poll_exhausted"))
      else if task == "" then EndProvider(job, FailProvider("provider_protocol_error"))
      else Swapping(job, ByWorker(Wait(task, if r.delay <= 0 then 1 else r.delay)), if cancelling then ThenCancel else ThenDone)
  }

  /** `recoverProviderReceipt`; `otherwise` is where the code goes when nothing conclusive was found. */
  function Recover(job: Job, a: Answer, otherwise: Pc, partial: Next, owner: string, until: int): Pc {
    match a
    case RecoveryFailed => Aborted
    case RecoveredAll(result) =>
      if result.assets == [] then Entering(result)
      else Swapping(job, ByWorker(RecoverComplete(result, owner, until)), ThenFinalize(result))
    case RecoveredPart(assets) =>
      if assets == [] || multiset(assets) == multiset(job.assets) then otherwise
      else Swapping(job, ByWorker(RecoverPartial(assets)), partial)
    case _ => otherwise
  }

  function AfterCall(job: Job, call: Call, a: Answer, owner: string, until: int): Pc {
    match a
    case LeaseLost => Aborted
    case Responded(r) => if call.CancelCall? then Aborted else ApplyResponse(job, r, call == SubmitCall(true), owner, until)
    case CallFailed(f) =>
      if !call.CancelCall? then ProviderError(job, f, false)
      else if f.retryable then EndProvider(job, ProviderRetry("provider_cancel_failed"))
      else PollPlan(job, owner, until)
    case CancelAnswer(confirmed) =>
      if !call.CancelCall? then Aborted
      else if confirmed then EndProvider(job, CancelJob("provider_cancelled"))
      else PollPlan(job, owner, until)
    case _ => Aborted
  }

  /** `handleProviderError` after recovery */
  function ProviderErrorPlan(job: Job, f: Failure): Pc {
    if f.retryable && (job.spec.maxAttempts <= 0 || job.sched.retryCount + 1 < job.spec.maxAttempts)
    then EndProvider(job, ProviderRetry(f.code))
    else EndProvider(job, FailProvider(f.code))
  }

  // ---------------------------------------------------------------- finalization

  function Inspect(job: Job, result: ProviderResult, quote: Quote, a: Answer): Pc {
    var receipt := if job.assets == [] then result.assets else job.assets;
    match a
    case InspectFailed => if receipt == [] then Aborted else End(job, ErrorPlan(job, Failure(BindingStage, FINALIZE_FAILED, true)))
    case Committed => if receipt == [] then Aborted else End(job, CompleteReceipt(receipt))
    case NotCommitted(persisted) =>
      if job.cancelRequested then End(job, CancelPlan(job))
      else if job.assets != [] then Checking(job, job.assets, quote)
      else if result.assets != [] then Swapping(job, ByFinalizer(RecordAssets(result.assets)), ThenCheck(result.assets, quote))
      else if persisted.Err? then End(job, ErrorPlan(job, persisted.error))
      else Swapping(job, ByFinalizer(RecordAssets(persisted.value)), ThenCheck(persisted.value, quote))
    case _ => Aborted
  }

  function Check(job: Job, assets: seq<string>, quote: Quote, a: Answer): Pc {
    match a
    case BindingFailed(f) => End(job, ErrorPlan(job, f))
    case NoGateway => if quote.points > 0 then End(job, ErrorPlan(job, Failure(BillingStage, FINALIZE_FAILED, false))) else Aborted
    case Binding(present, matches, _) =>
      if present && matches then
        if quote.points > 0 then Swapping(job, ByFinalizer(BeginCharge(ChargeKeyOf(job))), ThenPay(assets, quote))
        else Rechecking(job, assets, quote)
      else if job.money.txn.Some? then End(job, FailAfterCharge(present))
      else if !present then End(job, FailWithoutCharge(Orphaned, "target_orphaned"))
      else End(job, FailWithoutCharge(Superseded, "result_superseded"))
    case _ => Aborted
  }

  function Recheck(job: Job, assets: seq<string>, a: Answer): Pc {
    match a
    case BindingFailed(f) => End(job, ErrorPlan(job, f))
    case Binding(present, matches, commit) =>
      if !present || !matches || job.cancelRequested then End(job, FailAfterCharge(present))
      else Swapping(job, ByFinalizer(Commit(assets, commit)), ThenDelivered)
    case _ => Aborted
  }

  function AfterCommitFailure(latest: Job, f: Failure): Pc {
    if latest.cancelRequested then End(latest, CancelPlan(latest)) else End(latest, ErrorPlan(latest, f))
  }

  /** The steps of `Process`. */
  function AdvanceProcess(pc: Pc, a: Answer, owner: string, until: int): Pc {
    match pc
    case Loaded(job) =>
      if job.sched.attempt > 0 then Recover(job, a, Routing(job), ThenRoute, owner, until) else Routing(job)
    case Routing(job) => if a.Registered? then Route(job, a.known, owner, until) else Aborted
    case Calling(job, call) => AfterCall(job, call, a, owner, until)
    case ProviderError(job, f, recovered) =>
      if recovered then ProviderErrorPlan(job, f)
      else Recover(job, a, ProviderError(job, f, true), ThenProviderError(f), owner, until)
    case _ => pc
  }

  /** The steps of `Finalize`. */
  function AdvanceFinalize(pc: Pc, stored: Job, a: Answer): Pc {
    match pc
    case Entering(result) =>
      if Terminal(stored) then Finished else Swapping(stored, ByFinalizer(BeginFinalize(result)), ThenQuote(result))
    case Quoting(job, result) =>
      if job.quote.Some? then Reloading(result, job.quote.value)
      else if a.Priced? && a.price.points >= 0 then Swapping(job, ByFinalizer(FreezeQuote(a.price)), ThenQuoted(result, 0))
      else if a.PriceFailed? then End(job, ErrorPlan(job, a.failure))
      else Aborted
    case QuoteRereading(result, price, attempt) =>
      if stored.quote.Some? then Reloading(result, stored.quote.value)
      else if attempt + 1 < SETTLE_ATTEMPTS then Swapping(stored, ByFinalizer(FreezeQuote(price)), ThenQuoted(result, attempt + 1))
      else Aborted
    case Reloading(result, quote) => Inspecting(stored, result, quote)
    case Inspecting(job, result, quote) => Inspect(job, result, quote, a)
    case Checking(job, assets, quote) => Check(job, assets, quote, a)
    case ChargeRereading(charge, assets, quote, attempt) =>
      if !charge.RecordCharge? then Aborted
      else if stored.money.txn == Some(charge.txn) then Rechecking(stored, assets, quote)
      else if attempt + 1 < SETTLE_ATTEMPTS then Swapping(stored, ByFinalizer(charge), ThenRecheck(assets, quote, attempt + 1))
      else Aborted
    case Rechecking(job, assets, quote) => Recheck(job, assets, a)
    case CommitRereading(f) => AfterCommitFailure(stored, f)
    case _ => pc
  }

  predicate InProcess(pc: Pc) { pc.Loaded? || pc.Routing? || pc.Calling? || pc.ProviderError? }

  /** One local step: an answer from outside, or a read of the stored job. */
  function Advance(pc: Pc, stored: Job, a: Answer, owner: string, until: int): Pc {
    if InProcess(pc) then AdvanceProcess(pc, a, owner, until) else AdvanceFinalize(pc, stored, a)
  }

  /** The compare-and-swap succeeded and stored `updated`. */
  function AfterSwap(pc: Pc, updated: Job, owner: string, until: int): Pc
    requires pc.Swapping?
  {
    match pc.next
    case ThenRoute => Routing(updated)
    case ThenCall(call) => Calling(updated, call)
    case ThenCancel => CancellationPlan(updated, owner, until)
    case ThenProviderError(f) => ProviderError(updated, f, true)
    case ThenFinalize(result) => Entering(result)
    case ThenQuote(result) => Quoting(updated, result)
    case ThenQuoted(result, _) => if updated.quote.Some? then Reloading(result, updated.quote.value) else Aborted
    case ThenCheck(assets, quote) => Checking(updated, assets, quote)
    case ThenPay(assets, quote) => Paying(updated, assets, quote)
    case ThenRecheck(assets, quote, _) => Rechecking(updated, assets, quote)
    case ThenDelivered => Finished
    case ThenDone => Finished
  }

  /** The compare-and-swap was refused; `conflict` tells a version conflict from other errors. */
  function AfterRefusal(pc: Pc, conflict: bool, commitError: Option<Failure>, retryable: bool): Pc
    requires pc.Swapping?
  {
    match pc.next
    case ThenQuoted(result, attempt) =>
      if conflict && pc.mutation.ByFinalizer? && pc.mutation.f.FreezeQuote? then QuoteRereading(result, pc.mutation.f.quote, attempt) else Aborted
    case ThenRecheck(assets, quote, attempt) =>
      if conflict && pc.mutation.ByFinalizer? then ChargeRereading(pc.mutation.f, assets, quote, attempt) else Aborted
    case ThenDelivered =>
      CommitRereading(if commitError.Some? then commitError.value else Failure(BindingStage, FINALIZE_FAILED, retryable))
    case _ => Aborted
  }

  // ---------------------------------------------------------------- money

  function ChargeRequest(job: Job, quote: Quote): Billing.Request {
    Billing.Request(Billing.ChargeTxn(job.spec.id), job.spec.user, ChargeKeyOf(job), None,
      job.spec.operation, job.spec.batch, job.spec.id, quote.points, quote.breakdown)
  }

  function RefundRequest(job: Job): Billing.Request
    requires job.money.txn.Some?
  {
    Billing.Request(Billing.RefundTxn(job.spec.id), job.spec.user, Billing.RefundKey(job.spec.id, job.money.txn.value), job.money.txn,
      job.spec.operation, job.spec.batch, job.spec.id, job.money.charged, map[])
  }

  /** How the billing adapter classifies a ledger error. */
  function LedgerFailure(e: Billing.Error): Failure { Failure(BillingStage, "billing_rejected", e.InvalidRequest?) }

  function AfterCharge(pc: Pc, result: Result<Billing.Receipt, Failure>): Pc
    requires pc.Paying?
  {
    if result.Err? then End(pc.job, ChargeErrorPlan(pc.job, result.error))
    else
      var r := result.value;
      Swapping(pc.job, ByFinalizer(RecordCharge(r.id, r.txn.points, r.txn.breakdown, r.txn.balanceAfter)), ThenRecheck(pc.assets, pc.quote, 0))
  }

  // ---------------------------------------------------------------- compensation

  /** Program points of the compensation service. */
  datatype CompPc =
    | CompSwapping(job: Job, mutation: CompMutation)
    | Refunding(job: Job)
    | CompDone

  predicate Compensable(job: Job, now: int) {
    && job.money.txn.Some?
    && (job.comp.CompPending? || job.comp.CompRetryWait?
        || (job.comp.CompRunning? && !(job.lease.until.Some? && job.lease.until.value > now)))
  }

  predicate ManuallyFinalizable(job: Job, points: int, refund: Option<Billing.TxnId>) {
    && 0 <= points <= job.money.charged
    && job.comp.CompPending? && !job.fault.retryable && job.fault.code == COMPENSATION_FAILED
    && (points > 0 ==> refund.Some?)
  }

  function AfterRefund(job: Job, result: Result<Billing.Receipt, Failure>): CompPc {
    if result.Ok? && 0 <= result.value.txn.points <= job.money.charged then
      CompSwapping(job, CompleteCompensation(result.value.txn.points, result.value.id, result.value.txn.balanceAfter))
    else if result.Err? && !result.error.retryable then CompSwapping(job, GiveUpCompensation)
    else CompSwapping(job, RetryCompensation)
  }
}
