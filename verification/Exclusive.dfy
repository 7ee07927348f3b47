/**
 What holds of a job and its worker when the lease does its work: one worker per job at a time.
 The rules here are local, one program point or one mutation at a time.
 */
module ExclusiveRules {
  import opened Basics
  import opened GenerationModels
  import opened JobMutations
  import opened WorkflowStore
  import opened StoreInvariants
  import opened Workers
  import opened Snapshots
  import opened StoredChanges
  import opened MoneyRules
  import Billing

  // ---------------------------------------------------------------- one job

  /** A started job never queues again, a charged one never leaves finalization, and retries stay in budget. */
  ghost predicate Orderly(j: Job) {
    && (j.sched.attempt > 0 ==> !j.status.Queued?)
    && (j.status.Finalizing? ==> j.phase.ArtifactFinalize? || j.phase.BillingCharge?)
    && (j.money.txn.Some? && !Terminal(j) ==> InFinalization(j))
    && (!j.cancelRequested && !Terminal(j) ==> j.sched.retryCount < j.spec.maxAttempts)
  }

  /** Mutations of the provider phase; they presuppose that finalization has not begun. */
  predicate ProviderMutation(m: WorkerMutation) {
    m.Submit? || m.Poll? || m.Wait? || m.Complete? || m.CancelClaim? || m.CancelJob? || m.ProviderRetry?
  }

  /** What the code has established about the job when it queues this mutation. */
  ghost predicate Planned(j: Job, m: Mutation) {
    match m
    case ByWorker(w) =>
      && (ProviderMutation(w) ==> !InFinalization(j))
      && (w.ClaimFinalization? ==> InFinalization(j))
      && (w.Submit? ==> j.task == "")
      && (w.Wait? ==> w.task != "")
      && (w.ProviderRetry? ==> j.cancelRequested || j.sched.retryCount + 1 < j.spec.maxAttempts)
    case ByFinalizer(f) => f.ScheduleRetry? ==> j.sched.retryCount + 1 < j.spec.maxAttempts
    case ByCompensation(c) => InCompensation(j)
  }

  lemma WorkerKeepsOrder(a: Job, m: WorkerMutation, now: int, b: Job)
    requires StepsTo(a, ByWorker(m), now, b) && Bounded(a) && Orderly(a) && !Terminal(a) && Planned(a, ByWorker(m))
    ensures Orderly(b)
  {
  }

  lemma FinalizerKeepsOrder(a: Job, m: FinalMutation, now: int, b: Job)
    requires StepsTo(a, ByFinalizer(m), now, b) && Bounded(a) && Orderly(a) && !Terminal(a) && Planned(a, ByFinalizer(m))
    requires m.BeginFinalize? || a.status.Finalizing?
    ensures Orderly(b)
  {
  }

  lemma CompensationKeepsOrder(a: Job, m: CompMutation, now: int, b: Job)
    requires StepsTo(a, ByCompensation(m), now, b) && Bounded(a) && Orderly(a) && InCompensation(a)
    ensures Orderly(b) && Terminal(a) && b.status == a.status
  {
  }

  lemma CancelKeepsOrder(a: Job, now: int)
    requires Orderly(a)
    ensures Orderly(CancelledNow(a, now))
  {
  }

  // ---------------------------------------------------------------- program points

  /** Points of `Finalize` after its first write; the stored job is `finalizing` all the while. */
  predicate InsideFinalize(pc: Pc) {
    match pc
    case Swapping(_, m, _) => m.ByFinalizer? && !m.f.BeginFinalize?
    case Quoting(_, _) => true
    case QuoteRereading(_, _, _) => true
    case Reloading(_, _) => true
    case Inspecting(_, _, _) => true
    case Checking(_, _, _) => true
    case Paying(_, _, _) => true
    case ChargeRereading(_, _, _, _) => true
    case Rechecking(_, _, _) => true
    case CommitRereading(_) => true
    case _ => false
  }

  /** The mutations after which `Process` returns. */
  predicate Last(m: Mutation) {
    match m
    case ByWorker(w) => w.Wait? || w.CancelJob? || w.ProviderRetry? || w.FailProvider?
    case ByFinalizer(f) =>
      f.CompleteReceipt? || f.FailWithoutCharge? || f.FailAfterCharge? || f.CancelBeforeCommit? || f.ScheduleRetry? || f.FailPermanent?
    case ByCompensation(_) => false
  }

  /** Which mutation leads where. */
  predicate Leads(m: Mutation, next: Next) {
    match next
    case ThenRoute => m.ByWorker? && m.w.RecoverPartial?
    case ThenCall(call) => m.ByWorker? && (if call.SubmitCall? then m.w.Submit? else if call.PollCall? then m.w.Poll? else m.w.CancelClaim?)
    case ThenCancel => m.ByWorker? && m.w.Wait?
    case ThenProviderError(_) => m.ByWorker? && m.w.RecoverPartial?
    case ThenFinalize(_) => m.ByWorker? && (m.w.Complete? || m.w.RecoverComplete? || m.w.ClaimFinalization?)
    case ThenQuote(_) => m.ByFinalizer? && m.f.BeginFinalize?
    case ThenQuoted(_, _) => m.ByFinalizer? && m.f.FreezeQuote?
    case ThenCheck(_, _) => m.ByFinalizer? && m.f.RecordAssets?
    case ThenPay(_, _) => m.ByFinalizer? && m.f.BeginCharge?
    case ThenRecheck(_, _, _) => m.ByFinalizer? && m.f.RecordCharge?
    case ThenDelivered => m.ByFinalizer? && m.f.Commit?
    case ThenDone => Last(m)
  }

  /** A call made on behalf of a cancelled job. */
  predicate Cancelling(call: Call) { call.CancelCall? || call == SubmitCall(true) }

  ghost predicate Follows(job: Job, m: Mutation, next: Next) {
    && Leads(m, next) && Planned(job, m)
    && (next.ThenCall? && Cancelling(next.call) ==> job.cancelRequested)
    && (next.ThenCancel? ==> job.cancelRequested)
    && (next.ThenProviderError? ==> job.status.Running?)
  }

  ghost predicate PcPlanned(pc: Pc) {
    match pc
    case Swapping(job, m, next) => Follows(job, m, next)
    case Calling(job, call) =>
      job.status.Running? && (call.SubmitCall? ==> job.task == "") && (Cancelling(call) ==> job.cancelRequested)
    case ProviderError(job, _, _) => job.status.Running?
    case _ => true
  }

  ghost predicate HeldOrderly(held: Option<Job>) {
    held.Some? ==> Bounded(held.value) && Orderly(held.value) && !Terminal(held.value)
  }

  ghost predicate PcOrderly(pc: Pc, stored: Job) {
    HeldOrderly(Held(pc)) && PcPlanned(pc) && (InsideFinalize(pc) ==> stored.status.Finalizing?)
  }

  lemma RecoverPlans(job: Job, a: Answer, otherwise: Pc, partial: Next, owner: string, until: int)
    requires PcPlanned(otherwise) && !InsideFinalize(otherwise) && (partial.ThenRoute? || (partial.ThenProviderError? && job.status.Running?))
    ensures var pc := Recover(job, a, otherwise, partial, owner, until); PcPlanned(pc) && !InsideFinalize(pc)
  {
  }

  lemma RoutePlans(job: Job, known: bool, owner: string, until: int)
    requires Bounded(job) && Orderly(job) && !Terminal(job)
    ensures var pc := Route(job, known, owner, until); PcPlanned(pc) && !InsideFinalize(pc)
  {
  }

  lemma CallPlans(job: Job, call: Call, a: Answer, owner: string, until: int)
    requires Bounded(job) && Orderly(job) && PcPlanned(Calling(job, call))
    ensures var pc := AfterCall(job, call, a, owner, until); PcPlanned(pc) && !InsideFinalize(pc)
  {
    if a.Responded? && !call.CancelCall? { ResponsePlans(job, call, a.response, owner, until); }
  }

  lemma EndPlans(job: Job, m: WorkerMutation)
    requires Last(ByWorker(m)) && Planned(job, ByWorker(m))
    ensures PcPlanned(EndProvider(job, m)) && !InsideFinalize(EndProvider(job, m))
  {
  }

  lemma WaitPlans(job: Job, task: string, delay: int, next: Next)
    requires job.status.Running? && task != "" && (next.ThenDone? || (next.ThenCancel? && job.cancelRequested))
    ensures var pc := Swapping(job, ByWorker(Wait(task, delay)), next); PcPlanned(pc) && !InsideFinalize(pc)
  {
  }

  lemma CompletePlans(job: Job, result: ProviderResult, owner: string, until: int)
    requires job.status.Running?
    ensures var pc := Swapping(job, ByWorker(Complete(result, owner, until)), ThenFinalize(result)); PcPlanned(pc) && !InsideFinalize(pc)
  {
  }

  lemma ResponsePlans(job: Job, call: Call, r: ProviderResponse, owner: string, until: int)
    requires job.status.Running? && (Cancelling(call) ==> job.cancelRequested)
    ensures var pc := ApplyResponse(job, r, call == SubmitCall(true), owner, until); PcPlanned(pc) && !InsideFinalize(pc)
  {
    match r.state {
      case CompletedState => CompletePlans(job, r.result.(task := ValueOr(r.result.task, r.task)), owner, until);
      case FailedState => EndPlans(job, FailProvider("provider_failed"));
      case CancelledState => EndPlans(job, CancelJob("provider_cancelled"));
      case UnknownState => EndPlans(job, FailProvider("provider_protocol_error"));
      case _ =>
        var task := ValueOr(r.task, job.task);
        EndPlans(job, FailProvider("provider_poll_exhausted"));
        EndPlans(job, FailProvider("provider_protocol_error"));
        if task != "" { WaitPlans(job, task, if r.delay <= 0 then 1 else r.delay, if call == SubmitCall(true) then ThenCancel else ThenDone); }
    }
  }

  lemma ProcessIsPlanned(pc: Pc, a: Answer, owner: string, until: int)
    requires InProcess(pc) && HeldOrderly(Held(pc)) && PcPlanned(pc)
    ensures PcPlanned(AdvanceProcess(pc, a, owner, until)) && !InsideFinalize(AdvanceProcess(pc, a, owner, until))
  {
    match pc {
      case Loaded(job) => RecoverPlans(job, a, Routing(job), ThenRoute, owner, until);
      case Routing(job) => if a.Registered? { RoutePlans(job, a.known, owner, until); }
      case Calling(job, call) => CallPlans(job, call, a, owner, until);
      case ProviderError(job, f, recovered) => RecoverPlans(job, a, ProviderError(job, f, true), ThenProviderError(f), owner, until);
    }
  }

  lemma FinalizeIsPlanned(pc: Pc, stored: Job, a: Answer)
    requires HeldOrderly(Held(pc)) && PcPlanned(pc) && Bounded(stored)
    ensures PcPlanned(AdvanceFinalize(pc, stored, a))
  {
  }

  lemma FinalizeStaysInside(pc: Pc, stored: Job, a: Answer)
    requires InsideFinalize(pc) ==> stored.status.Finalizing?
    ensures InsideFinalize(AdvanceFinalize(pc, stored, a)) ==> stored.status.Finalizing?
  {
  }

  /** Fresh reads are taken inside finalization, or checked for a terminal status first. */
  lemma FinalizeHolds(pc: Pc, stored: Job, a: Answer)
    ensures var h := Held(AdvanceFinalize(pc, stored, a));
            h.None? || h == Held(pc) || (h == Some(stored) && (InsideFinalize(pc) || !Terminal(stored)))
  {
  }

  lemma AdvanceIsOrderly(pc: Pc, stored: Job, a: Answer, owner: string, until: int)
    requires PcOrderly(pc, stored) && Bounded(stored) && Orderly(stored)
    ensures PcOrderly(Advance(pc, stored, a, owner, until), stored)
  {
    if InProcess(pc) {
      ProcessIsPlanned(pc, a, owner, until);
      ProcessHolds(pc, a, owner, until);
    } else {
      FinalizeIsPlanned(pc, stored, a);
      FinalizeStaysInside(pc, stored, a);
      FinalizeHolds(pc, stored, a);
    }
  }

  lemma ProcessHolds(pc: Pc, a: Answer, owner: string, until: int)
    requires InProcess(pc)
    ensures var h := Held(AdvanceProcess(pc, a, owner, until)); h.None? || h == Held(pc)
  {
  }

  /** Mutations that leave the worker with the job in hand leave the job open. */
  lemma StaysOpen(a: Job, m: Mutation, now: int, b: Job, next: Next)
    requires StepsTo(a, m, now, b) && Leads(m, next) && !next.ThenDone? && !next.ThenDelivered? && !Terminal(a)
    ensures !Terminal(b)
  {
    if m.ByWorker? { assert StepsTo(a, ByWorker(m.w), now, b); } else { assert StepsTo(a, ByFinalizer(m.f), now, b); }
  }

  lemma SwapLandsInside(a: Job, m: Mutation, now: int, b: Job, next: Next)
    requires StepsTo(a, m, now, b) && Leads(m, next) && (m.ByFinalizer? && !m.f.BeginFinalize? ==> a.status.Finalizing?)
    ensures next.ThenQuote? || next.ThenQuoted? || next.ThenCheck? || next.ThenPay? || next.ThenRecheck? ==> b.status.Finalizing?
    ensures next.ThenCall? || (next.ThenProviderError? && a.status.Running?) ==> b.status.Running?
    ensures next.ThenCall? && next.call.SubmitCall? ==> b.task == a.task
    ensures next.ThenCancel? ==> b.status.WaitingProvider?
    ensures b.cancelRequested == a.cancelRequested
  {
  }

  /** The compare-and-swap found its snapshot `a` and stored `b`. */
  lemma AfterSwapIsOrderly(pc: Pc, a: Job, now: int, b: Job, owner: string, until: int)
    requires pc.Swapping? && PcOrderly(pc, a) && Stamped(pc.job) == Stamped(a) && StepsTo(a, pc.mutation, now, b)
    requires Bounded(b) && Orderly(b)
    ensures PcOrderly(AfterSwap(pc, b, owner, until), b)
  {
    SwapLandsInside(a, pc.mutation, now, b, pc.next);
    if !pc.next.ThenDone? && !pc.next.ThenDelivered? { StaysOpen(a, pc.mutation, now, b, pc.next); }
    SwapHolds(pc, b, owner, until);
  }

  lemma AfterRefusalIsOrderly(pc: Pc, stored: Job, conflict: bool, commitError: Option<Failure>, retryable: bool)
    requires pc.Swapping? && PcOrderly(pc, stored)
    ensures PcOrderly(AfterRefusal(pc, conflict, commitError, retryable), stored)
  {
  }

  lemma AfterChargeIsOrderly(pc: Pc, stored: Job, result: Result<Billing.Receipt, Failure>)
    requires pc.Paying? && PcOrderly(pc, stored)
    ensures PcOrderly(AfterCharge(pc, result), stored)
  {
  }

  // ---------------------------------------------------------------- progress

  /** Polls left, retries left, and one for a job that has no provider task yet. */
  function Left(j: Job): int {
    (j.spec.maxPolls - j.sched.polls) + (j.spec.maxAttempts - j.sched.retryCount) + (if j.task == "" then 1 else 0)
  }

  /** Points reached only after part of the budget is spent. */
  predicate Spent(pc: Pc) {
    || pc.Finished?
    || (pc.Calling? && pc.call.PollCall?)
    || (pc.Swapping? && pc.mutation.ByWorker? && pc.mutation.w.Wait? && pc.job.task != "")
  }

  /** Unless the job is cancelled or over, the worker has spent no less than its program point says. */
  ghost predicate Progresses(pc: Pc, start: Job, stored: Job) {
    || stored.cancelRequested || Terminal(stored)
    || (Left(stored) <= Left(start) && (Spent(pc) ==> Left(stored) < Left(start)))
  }

  lemma AdvanceSpends(pc: Pc, stored: Job, a: Answer, owner: string, until: int)
    requires PcPlanned(pc)
    ensures Spent(Advance(pc, stored, a, owner, until)) ==> Spent(pc) || Terminal(stored)
  {
    if InProcess(pc) { ProcessSpends(pc, a, owner, until); } else { FinalizeSpends(pc, stored, a); }
  }

  lemma ProcessSpends(pc: Pc, a: Answer, owner: string, until: int)
    requires InProcess(pc) && PcPlanned(pc)
    ensures Spent(AdvanceProcess(pc, a, owner, until)) ==> Spent(pc)
  {
  }

  lemma FinalizeSpends(pc: Pc, stored: Job, a: Answer)
    ensures Spent(AdvanceFinalize(pc, stored, a)) ==> Spent(pc) || Terminal(stored)
  {
  }

  lemma WorkerSpends(a: Job, m: WorkerMutation, now: int, b: Job)
    requires StepsTo(a, ByWorker(m), now, b) && Planned(a, ByWorker(m))
    ensures Left(b) <= Left(a)
    ensures m.Poll? || m.ProviderRetry? || (m.Wait? && a.task == "") ==> Left(b) < Left(a)
    ensures m.CancelJob? || m.FailProvider? ==> Terminal(b)
  {
  }

  lemma FinalizerSpends(a: Job, m: FinalMutation, now: int, b: Job)
    requires StepsTo(a, ByFinalizer(m), now, b)
    ensures Left(b) <= Left(a)
    ensures m.ScheduleRetry? ==> Left(b) < Left(a)
    ensures (Last(ByFinalizer(m)) && !m.ScheduleRetry?) || m.Commit? ==> Terminal(b)
  {
  }

  lemma SpentWhere(pc: Pc, b: Job, owner: string, until: int)
    requires pc.Swapping? && Spent(AfterSwap(pc, b, owner, until))
    ensures pc.next.ThenDone? || pc.next.ThenDelivered? || (pc.next.ThenCall? && pc.next.call.PollCall?)
  {
  }

  /** No mutation of a worker gives budget back, and those that end the call without ending the job take some. */
  lemma SwapSpends(pc: Pc, a: Job, now: int, b: Job, owner: string, until: int)
    requires pc.Swapping? && PcPlanned(pc) && !pc.mutation.ByCompensation? && Stamped(pc.job) == Stamped(a) && StepsTo(a, pc.mutation, now, b)
    ensures Left(b) <= Left(a)
    ensures Spent(AfterSwap(pc, b, owner, until)) ==> Terminal(b) || Left(b) < Left(a) || Spent(pc)
  {
    if Spent(AfterSwap(pc, b, owner, until)) { SpentWhere(pc, b, owner, until); }
    if pc.mutation.ByWorker? { WorkerSpends(a, pc.mutation.w, now, b); } else { FinalizerSpends(a, pc.mutation.f, now, b); }
  }
}
