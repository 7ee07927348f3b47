/**
 The three ways a stored job changes in a step: its lease is renewed, its batch is cancelled,
 or the compare-and-swap of one thread finds its own snapshot and applies its mutation.
 */
module StoredChanges {
  import opened Basics
  import opened GenerationModels
  import opened JobMutations
  import opened WorkflowStore
  import opened BatchTransactions
  import opened StoreInvariants
  import opened Workers
  import opened World
  import opened Snapshots

  /** `b` is what `MutateJob` makes of `a`. */
  ghost predicate StepsTo(a: Job, m: Mutation, now: int, b: Job) {
    && Apply(m, a, now).Ok?
    && (a.status == Apply(m, a, now).value.job.status || JobTransition(a.status, Apply(m, a, now).value.job.status))
    && b == StampJob(a, Apply(m, a, now).value.job, now)
  }

  /** The acting thread held exactly `a` and stored `b`. */
  ghost predicate Swapped(w: World, l: Label, a: Job, b: Job) {
    match l
    case Swap(t, now, _, _, _) =>
      && t in w.threads && w.threads[t].Worker? && w.threads[t].job == a.spec.id && w.threads[t].pc.Swapping?
      && Stamped(w.threads[t].pc.job) == Stamped(a) && StepsTo(a, w.threads[t].pc.mutation, now, b)
    case CompSwap(t, now) =>
      && t in w.threads && w.threads[t].Compensator? && w.threads[t].job == a.spec.id && w.threads[t].cpc.CompSwapping?
      && Stamped(w.threads[t].cpc.job) == Stamped(a) && StepsTo(a, ByCompensation(w.threads[t].cpc.mutation), now, b)
    case _ => false
  }

  ghost predicate CancelledBy(l: Label, a: Job, b: Job) {
    l.StoreStep? && l.op.Cancel? && b == CancelledNow(a, l.op.now)
  }

  ghost predicate JobChanged(w: World, l: Label, a: Job, b: Job) {
    Stamped(a) == Stamped(b) || CancelledBy(l, a, b) || Swapped(w, l, a, b)
  }

  /** A job as creation leaves it. */
  ghost predicate Unstarted(j: Job) {
    && j.status.Queued? && j.phase.ProviderSubmit? && j.sched == Schedule(0, 0, 0, None) && j.lease == NO_LEASE
    && j.task == "" && j.usage.None? && j.quote.None? && j.comp.NotRequired? && !j.cancelRequested
    && j.money == Money(NotStarted, j.money.key, None, 0, 0, 0, map[], None, None)
    && j.spec.maxAttempts >= 1 && j.spec.maxPolls >= 1
  }

  ghost predicate OnlyNewJobs(s: Store, s': Store) {
    && (forall id :: id in s.jobs ==> id in s'.jobs && s'.jobs[id] == s.jobs[id])
    && (forall id :: id in s'.jobs && id !in s.jobs ==> Unstarted(s'.jobs[id]))
  }

  lemma NewJobsUnstarted(s: Store, s': Store, c: CreateCommand, now: int)
    requires AddsJobs(s, s', c, NewJobs(c, now))
    ensures OnlyNewJobs(s, s')
  {
    var jobs := NewJobs(c, now);
    forall id | id in s'.jobs && id !in s.jobs ensures Unstarted(s'.jobs[id]) {
      var i :| 0 <= i < |jobs| && jobs[i].spec.id == id;
      assert AddsJob(s, s', c, jobs[i]);
    }
  }

  lemma CreateAdds(s: Store, c: CreateCommand, now: int)
    requires s.jobIds.Keys == s.batches.Keys
    ensures OnlyNewJobs(s, Do(s, Create(c, now)))
  {
    var r := CreateWorkflow(s, c, now);
    if r.Ok? && r.value.1 {
      CreatedWasAllowed(s, c, now);
      CreatedShape(s, c, now);
      NewJobsUnstarted(s, WithWorkflow(s, c, NewJobs(c, now), now), c, now);
    }
  }

  lemma BarrierIs(s: Store, b: Id, now: int)
    requires StoreInv(s) && b in s.batches
    ensures Linked(s, b) && TryFinalize(s, b, now) == Ok(Finalized(s, b, now))
  {
    BarrierKeeps(s, b, now);
  }

  lemma FinalizedSparesJobs(s: Store, b: Id, now: int)
    requires Linked(s, b)
    ensures Finalized(s, b, now).jobs == s.jobs
  {
  }

  lemma BarrierSparesJobs(s: Store, b: Id, now: int)
    requires b in s.batches ==> Linked(s, b) && TryFinalize(s, b, now) == Ok(Finalized(s, b, now))
    ensures Do(s, Barrier(b, now)).jobs == s.jobs
  {
    if b in s.batches { FinalizedSparesJobs(s, b, now); }
  }

  /** Either nothing happens or every job of the batch takes the cancel step. */
  ghost predicate CancelOutcome(s: Store, b: Id, now: int) {
    || CancelBatch(s, b, now).Err?
    || CancelBatch(s, b, now) == Ok(s)
    || (b in s.batches && CancelBatch(s, b, now).Ok? && CancelShape(s, CancelBatch(s, b, now).value, b, now))
  }

  lemma CancelIs(s: Store, b: Id, now: int)
    requires StoreInv(s)
    ensures CancelOutcome(s, b, now)
  {
    if b in s.batches {
      CancelPre(s, b);
      if Cancels(s, b) {
        FirstCancel(s, b, now);
        CancelHasShape(s, b, now);
      } else {
        IdleCancel(s, b, now);
      }
    }
  }

  lemma CancelTouches(s: Store, b: Id, now: int, id: Id)
    requires CancelOutcome(s, b, now) && id in s.jobs
    ensures Do(s, Cancel(b, now)).jobs.Keys == s.jobs.Keys
    ensures var j := Do(s, Cancel(b, now)).jobs[id]; j == s.jobs[id] || j == CancelledNow(s.jobs[id], now)
  {
  }

  lemma RenewTouchesLease(s: Store, job: Id, owner: string, until: int, now: int, id: Id)
    requires id in s.jobs
    ensures Do(s, Renew(job, owner, until, now)).jobs.Keys == s.jobs.Keys
    ensures Stamped(Do(s, Renew(job, owner, until, now)).jobs[id]) == Stamped(s.jobs[id])
  {
  }

  lemma MutateTouches(s: Store, job: Id, expected: int, m: Mutation, now: int, id: Id)
    requires id in s.jobs
    ensures Do(s, Mutate(job, expected, m, now)).jobs.Keys == s.jobs.Keys
    ensures var j := Do(s, Mutate(job, expected, m, now)).jobs[id];
            j == s.jobs[id] || (job == id && MutateJob(s, id, expected, m, now).Ok? && StepsTo(s.jobs[id], m, now, j))
  {
    if MutateJob(s, job, expected, m, now).Ok? { var job', events := MutateEffect(s, job, expected, m, now); }
  }

  lemma SwapChanges(w: World, t: nat, now: int, owner: string, until: int, retryable: bool, id: Id)
    requires ThreadFine(w, t) && id in w.store.jobs
    ensures id in Step(w, Swap(t, now, owner, until, retryable)).store.jobs
    ensures JobChanged(w, Swap(t, now, owner, until, retryable), w.store.jobs[id], Step(w, Swap(t, now, owner, until, retryable)).store.jobs[id])
  {
    if WorkerAt(w, t) && w.threads[t].pc.Swapping? {
      var th := w.threads[t];
      MutateTouches(w.store, th.pc.job.spec.id, th.pc.job.version, th.pc.mutation, now, id);
      if SwapResult(w.store, th.pc.job, th.pc.mutation, now).Ok? { SwapFound(w.store, th.pc.job, th.pc.mutation, now, th.job); }
    }
  }

  lemma CompSwapChanges(w: World, t: nat, now: int, id: Id)
    requires ThreadFine(w, t) && id in w.store.jobs
    ensures id in Step(w, CompSwap(t, now)).store.jobs
    ensures JobChanged(w, CompSwap(t, now), w.store.jobs[id], Step(w, CompSwap(t, now)).store.jobs[id])
  {
    if t in w.threads && w.threads[t].Compensator? && w.threads[t].cpc.CompSwapping? {
      var th := w.threads[t];
      MutateTouches(w.store, th.cpc.job.spec.id, th.cpc.job.version, ByCompensation(th.cpc.mutation), now, id);
      if SwapResult(w.store, th.cpc.job, ByCompensation(th.cpc.mutation), now).Ok? {
        SwapFound(w.store, th.cpc.job, ByCompensation(th.cpc.mutation), now, th.job);
      }
    }
  }

  /** Operations that only renew leases, cancel or look at batches, or move outbox rows. */
  lemma OtherOpsChange(s: Store, op: StoreOp, id: Id)
    requires StoreInv(s) && !op.Mutate? && id in s.jobs
    ensures id in Do(s, op).jobs
    ensures Stamped(s.jobs[id]) == Stamped(Do(s, op).jobs[id]) || (op.Cancel? && Do(s, op).jobs[id] == CancelledNow(s.jobs[id], op.now))
  {
    match op {
      case Create(c, now) => CreateAdds(s, c, now);
      case Barrier(b, now) => if b in s.batches { BarrierIs(s, b, now); } BarrierSparesJobs(s, b, now);
      case Cancel(b, now) => CancelIs(s, b, now); CancelTouches(s, b, now, id);
      case Renew(job, owner, until, now) => RenewTouchesLease(s, job, owner, until, now, id);
      case _ =>
    }
  }

  lemma CancelAddsNone(s: Store, b: Id, now: int)
    requires CancelOutcome(s, b, now)
    ensures Do(s, Cancel(b, now)).jobs.Keys == s.jobs.Keys
  {
  }

  lemma MutateAddsNone(s: Store, job: Id, expected: int, m: Mutation, now: int)
    ensures Do(s, Mutate(job, expected, m, now)).jobs.Keys == s.jobs.Keys
  {
    if MutateJob(s, job, expected, m, now).Ok? { var job', events := MutateEffect(s, job, expected, m, now); }
  }

  lemma RestAddsNone(s: Store, op: StoreOp)
    requires op.Renew? || op.Acknowledge? || op.Reject? || op.Nothing?
    ensures Do(s, op).jobs.Keys == s.jobs.Keys
  {
  }

  lemma OnlyCreateAdds(s: Store, op: StoreOp, id: Id)
    requires StoreInv(s) && id in Do(s, op).jobs && id !in s.jobs
    ensures Unstarted(Do(s, op).jobs[id])
  {
    match op {
      case Create(c, now) => CreateAdds(s, c, now);
      case Barrier(b, now) => if b in s.batches { BarrierIs(s, b, now); } BarrierSparesJobs(s, b, now);
      case Cancel(b, now) => CancelIs(s, b, now); CancelAddsNone(s, b, now);
      case Mutate(job, expected, m, now) => MutateAddsNone(s, job, expected, m, now);
      case _ => RestAddsNone(s, op);
    }
  }

  lemma NewJobsAreUnstarted(w: World, l: Label, id: Id)
    requires StoreInv(w.store) && id in Step(w, l).store.jobs && id !in w.store.jobs
    ensures Unstarted(Step(w, l).store.jobs[id])
  {
    StepDoes(w, l);
    OnlyCreateAdds(w.store, OpOf(w, l), id);
  }

  lemma OtherStepsChange(w: World, l: Label, id: Id)
    requires StoreInv(w.store) && id in w.store.jobs && !l.Swap? && !l.CompSwap? && id in Step(w, l).store.jobs
    ensures JobChanged(w, l, w.store.jobs[id], Step(w, l).store.jobs[id])
  {
    StepDoes(w, l);
    OtherOpsChange(w.store, OpOf(w, l), id);
  }

  /** Every change of a stored job has one of the three causes, and every new job is unstarted. */
  lemma StoredChange(w: World, l: Label, id: Id)
    requires Coherent(w) && id in Step(w, l).store.jobs
    ensures id in w.store.jobs ==> JobChanged(w, l, w.store.jobs[id], Step(w, l).store.jobs[id])
    ensures id !in w.store.jobs ==> Unstarted(Step(w, l).store.jobs[id])
  {
    StoreIndexed(w.store);
    if id !in w.store.jobs { NewJobsAreUnstarted(w, l, id); }
    else if l.Swap? { SwapChanges(w, l.t, l.now, l.owner, l.until, l.retryable, id); }
    else if l.CompSwap? { CompSwapChanges(w, l.t, l.now, id); }
    else { OtherStepsChange(w, l, id); }
  }
}
