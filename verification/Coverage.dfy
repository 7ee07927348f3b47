/**
 No recorded charge is left without delivery or compensation, in lease-exclusive runs in which no answer from outside
 is lossy; and where such a run goes on with one answer and its compare-and-swap, a charge is left uncovered exactly
 when the answer is lossy and nobody touched the job since the worker read it.
 */
module Coverage {
  import opened Basics
  import opened GenerationModels
  import opened JobMutations
  import opened WorkflowStore
  import opened BatchTransactions
  import opened StoreInvariants
  import opened Workers
  import opened World
  import opened Snapshots
  import opened StoredChanges
  import opened MoneyRules
  import opened MoneyRuns
  import opened ExclusiveRules
  import opened ExclusiveRuns
  import Billing

  /** A finished job that was charged has delivered, or its money is on the way back or settled. */
  ghost predicate Covered(j: Job) {
    Terminal(j) && j.money.txn.Some? ==> j.status.Succeeded? || !j.comp.NotRequired?
  }

  // ---------------------------------------------------------------- lossy answers

  /** The last retry is used up on a failure outside the binding stage: the code then fails the job for good. */
  predicate LastRetryLost(f: Failure, job: Job) {
    f.retryable && job.sched.retryCount + 1 >= job.spec.maxAttempts && !f.stage.BindingStage?
  }

  /** Answers after which the code gives up on a charged job without asking for compensation. */
  ghost predicate LossyAnswer(pc: Pc, stored: Job, a: Answer) {
    match pc
    case Routing(job) => job.money.txn.Some? && a == Registered(false)
    case Inspecting(job, result, _) =>
      && job.money.txn.Some? && a.NotCommitted? && a.persisted.Err? && LastRetryLost(a.persisted.error, job)
      && !job.cancelRequested && job.assets == [] && result.assets == []
    case Checking(job, _, _) => job.money.txn.Some? && a.BindingFailed? && LastRetryLost(a.failure, job)
    case Rechecking(job, _, _) => job.money.txn.Some? && a.BindingFailed? && LastRetryLost(a.failure, job)
    case CommitRereading(f) => stored.money.txn.Some? && !stored.cancelRequested && LastRetryLost(f, stored)
    case _ => false
  }

  /** A billing gateway that fails although the charge is already recorded on the job. */
  ghost predicate LossyGateway(job: Job, g: Gateway) {
    job.money.txn.Some? && !g.Up? && (!g.failure.retryable || LastRetryLost(g.failure, job))
  }

  ghost predicate Lossy(w: World, l: Label) {
    match l
    case WorkerStep(t, a, _, _) => WorkerAt(w, t) && LossyAnswer(w.threads[t].pc, w.store.jobs[w.threads[t].job], a)
    case CallCharge(t, g) => WorkerAt(w, t) && w.threads[t].pc.Paying? && LossyGateway(w.threads[t].pc.job, g)
    case _ => false
  }

  // ---------------------------------------------------------------- local rules

  /** Mutations that end a job and declare that nothing needs to be compensated. */
  predicate Drops(m: Mutation) {
    match m
    case ByWorker(w) => w.FailProvider? || w.CancelJob?
    case ByFinalizer(f) => f.FailWithoutCharge? || f.CancelBeforeCommit? || f.FailPermanent?
    case ByCompensation(_) => false
  }

  ghost predicate HeldPriced(held: Option<Job>) { held.Some? && held.value.money.txn.Some? ==> held.value.quote.Some? }

  ghost predicate PlanCovered(pc: Pc) { pc.Swapping? && Drops(pc.mutation) ==> pc.job.money.txn.None? }

  ghost predicate PcCovered(pc: Pc) { HeldPriced(Held(pc)) && PlanCovered(pc) }

  lemma ProcessCovered(pc: Pc, stored: Job, a: Answer, owner: string, until: int)
    requires InProcess(pc) && HeldOrderly(Held(pc)) && PcPlanned(pc) && !LossyAnswer(pc, stored, a)
    ensures PlanCovered(AdvanceProcess(pc, a, owner, until))
  {
  }

  lemma FinalizeCovered(pc: Pc, stored: Job, a: Answer)
    requires HeldOrderly(Held(pc)) && Bounded(stored) && PcCovered(pc) && !LossyAnswer(pc, stored, a)
    ensures PlanCovered(AdvanceFinalize(pc, stored, a))
  {
  }

  lemma AdvanceCovered(pc: Pc, stored: Job, a: Answer, owner: string, until: int)
    requires HeldOrderly(Held(pc)) && PcPlanned(pc) && Bounded(stored) && PcCovered(pc) && !LossyAnswer(pc, stored, a)
    requires stored.money.txn.Some? ==> stored.quote.Some?
    ensures PcCovered(Advance(pc, stored, a, owner, until))
  {
    AdvanceHolds(pc, stored, a, owner, until);
    if InProcess(pc) { ProcessCovered(pc, stored, a, owner, until); } else { FinalizeCovered(pc, stored, a); }
  }

  lemma AfterSwapCovered(pc: Pc, b: Job, owner: string, until: int)
    requires pc.Swapping? && Bounded(b) && Orderly(b) && (pc.next.ThenCancel? ==> b.status.WaitingProvider?)
    requires b.money.txn.Some? ==> b.quote.Some?
    ensures PcCovered(AfterSwap(pc, b, owner, until))
  {
  }

  lemma AfterRefusalCovered(pc: Pc, conflict: bool, commitError: Option<Failure>, retryable: bool)
    requires pc.Swapping?
    ensures PcCovered(AfterRefusal(pc, conflict, commitError, retryable))
  {
  }

  lemma AfterChargeCovered(pc: Pc, result: Result<Billing.Receipt, Failure>)
    requires pc.Paying? && PcCovered(pc) && HeldOrderly(Held(pc))
    requires pc.job.money.txn.Some? && result.Err? ==> result.error.retryable && !LastRetryLost(result.error, pc.job)
    ensures PcCovered(AfterCharge(pc, result))
  {
  }

  lemma SwapCovers(a: Job, m: Mutation, now: int, b: Job)
    requires StepsTo(a, m, now, b) && !Terminal(a) && !m.ByCompensation? && (Drops(m) ==> a.money.txn.None?)
    ensures Covered(b)
  {
    if m.ByWorker? { WorkerCovers(a, m.w, now, b); } else { FinalizerCovers(a, m.f, now, b); }
  }

  lemma WorkerCovers(a: Job, m: WorkerMutation, now: int, b: Job)
    requires StepsTo(a, ByWorker(m), now, b) && !Terminal(a) && (Drops(ByWorker(m)) ==> a.money.txn.None?)
    ensures Covered(b)
  {
  }

  lemma FinalizerCovers(a: Job, m: FinalMutation, now: int, b: Job)
    requires StepsTo(a, ByFinalizer(m), now, b) && !Terminal(a) && (Drops(ByFinalizer(m)) ==> a.money.txn.None?)
    ensures Covered(b)
  {
  }

  lemma CompensationCovers(a: Job, m: CompMutation, now: int, b: Job)
    requires StepsTo(a, ByCompensation(m), now, b)
    ensures Covered(b)
  {
  }

  lemma CancelCovers(a: Job, now: int)
    requires Covered(a) && Orderly(a)
    ensures Covered(CancelledNow(a, now))
  {
  }

  // ---------------------------------------------------------------- runs

  ghost predicate JobsCovered(jobs: Jobs) { forall id :: id in jobs ==> Covered(jobs[id]) }

  ghost predicate CoverageInv(w: World) {
    && JobsCovered(w.store.jobs)
    && (forall t :: t in w.threads && w.threads[t].Worker? ==> PcCovered(w.threads[t].pc))
  }

  ghost predicate JobsPriced(jobs: Jobs) { forall id :: id in jobs && jobs[id].money.txn.Some? ==> jobs[id].quote.Some? }

  /** A recorded charge is in the ledger, and the ledger only books frozen prices. */
  lemma ChargedIsPriced(w: World)
    requires MoneyInv(w) && Indexed(w.store)
    ensures JobsPriced(w.store.jobs)
  {
    forall id | id in w.store.jobs && w.store.jobs[id].money.txn.Some? ensures w.store.jobs[id].quote.Some? {
      assert JobMoney(w.ledger, w.store.jobs[id]);
      assert TxnFits(w.ledger, w.store.jobs, Billing.ChargeTxn(id));
    }
  }

  ghost predicate ActorCovered(w: World, l: Label) {
    Actor(l).Some? && Actor(l).value in w.threads && w.threads[Actor(l).value].Worker? ==> PcCovered(w.threads[Actor(l).value].pc)
  }

  lemma ChangeKeepsCovered(w: World, l: Label, a: Job, b: Job)
    requires JobChanged(w, l, a, b) && Covered(a) && Orderly(a) && a.spec.id in w.store.jobs && w.store.jobs[a.spec.id] == a
    requires ActorIn(w, l) && ActorOrderly(w, l) && ActorCovered(w, l)
    ensures Covered(b)
  {
    if Swapped(w, l, a, b) {
      if l.Swap? {
        var pc := w.threads[l.t].pc;
        SwapCovers(a, pc.mutation, l.now, b);
      } else {
        CompensationCovers(a, w.threads[l.t].cpc.mutation, l.now, b);
      }
    } else if CancelledBy(l, a, b) {
      CancelCovers(a, l.op.now);
    }
  }

  lemma JobsStayCovered(w: World, l: Label)
    requires Coherent(w) && ActorIn(w, l) && ActorOrderly(w, l) && ActorCovered(w, l) && JobsCovered(w.store.jobs)
    requires AllOrderly(w.store.jobs)
    ensures JobsCovered(Step(w, l).store.jobs)
  {
    var jobs, jobs' := w.store.jobs, Step(w, l).store.jobs;
    StoreIndexed(w.store);
    forall id | id in jobs' ensures Covered(jobs'[id]) {
      StoredChange(w, l, id);
      if id in jobs { ChangeKeepsCovered(w, l, jobs[id], jobs'[id]); }
    }
  }

  ghost predicate ActorStaysCovered(w: World, l: Label) {
    var w' := Step(w, l);
    Actor(l).Some? && Actor(l).value in w'.threads && w'.threads[Actor(l).value].Worker? ==> PcCovered(w'.threads[Actor(l).value].pc)
  }

  lemma WorkerStepCovered(w: World, t: nat, a: Answer, owner: string, until: int)
    requires !Lossy(w, WorkerStep(t, a, owner, until)) && JobsPriced(w.store.jobs) && JobsFit(w.ledger, w.store.jobs)
    requires ActorOrderly(w, WorkerStep(t, a, owner, until)) && ActorCovered(w, WorkerStep(t, a, owner, until))
    ensures ActorStaysCovered(w, WorkerStep(t, a, owner, until))
  {
    if WorkerAt(w, t) { AdvanceCovered(w.threads[t].pc, w.store.jobs[w.threads[t].job], a, owner, until); }
  }

  /** The ledger answers a repeated charge, so only the gateway can fail a charged job. */
  lemma ChargeCovered(w: World, t: nat, g: Gateway)
    requires ThreadFine(w, t) && !Lossy(w, CallCharge(t, g)) && LedgerFits(w.ledger, w.store.jobs)
    requires ActorIn(w, CallCharge(t, g)) && ActorOrderly(w, CallCharge(t, g)) && ActorCovered(w, CallCharge(t, g))
    ensures ActorStaysCovered(w, CallCharge(t, g))
  {
    if WorkerAt(w, t) && w.threads[t].pc.Paying? {
      var pc := w.threads[t].pc;
      PayingMayCharge(w, t);
      if pc.job.money.txn.Some? { RepeatedChargeIsAnswered(w.ledger, w.store.jobs, pc.job, pc.quote); }
      AfterChargeCovered(pc, ThroughGateway(w.ledger, ChargeRequest(pc.job, pc.quote), Billing.Charge, g).1);
    }
  }

  ghost predicate SwapYieldsPriced(w: World, t: nat, now: int) {
    WorkerAt(w, t) && w.threads[t].pc.Swapping? ==>
      var r := SwapResult(w.store, w.threads[t].pc.job, w.threads[t].pc.mutation, now);
      r.Ok? ==> HeldPriced(Some(r.value.1))
  }

  lemma WaitingAfterWait(a: Job, m: WorkerMutation, now: int, b: Job)
    requires StepsTo(a, ByWorker(m), now, b) && m.Wait?
    ensures b.status.WaitingProvider?
  {
  }

  lemma SwapCovered(w: World, t: nat, now: int, owner: string, until: int, retryable: bool)
    requires ThreadFine(w, t) && WorkerAt(w, t) && w.threads[t].pc.Swapping? && ThreadOrderly(w.store.jobs, w.threads[t])
    requires SwapYieldsPriced(w, t, now) && SwapYieldsOrderly(w, t, now)
    ensures PcCovered(WorkerSwap(w, t, now, owner, until, retryable).threads[t].pc)
  {
    var th := w.threads[t];
    var r := SwapResult(w.store, th.pc.job, th.pc.mutation, now);
    if r.Ok? {
      SwapFound(w.store, th.pc.job, th.pc.mutation, now, th.job);
      if th.pc.next.ThenCancel? {
        assert StepsTo(w.store.jobs[th.job], th.pc.mutation, now, r.value.1);
        WaitingAfterWait(w.store.jobs[th.job], th.pc.mutation.w, now, r.value.1);
      }
      AfterSwapCovered(th.pc, r.value.1, owner, until);
    } else {
      var commitError := if r.error.Refused? && r.error.cause.CommitFailed? then Some(r.error.cause.failure) else None;
      AfterRefusalCovered(th.pc, r.error.VersionConflict?, commitError, retryable);
    }
  }

  lemma PricedYields(w: World, t: nat, now: int, jobs': Jobs)
    requires ThreadFine(w, t) && JobsPriced(jobs')
    requires WorkerAt(w, t) && w.threads[t].pc.Swapping? && SwapResult(w.store, w.threads[t].pc.job, w.threads[t].pc.mutation, now).Ok? ==>
      jobs' == SwapResult(w.store, w.threads[t].pc.job, w.threads[t].pc.mutation, now).value.0.jobs
    ensures SwapYieldsPriced(w, t, now)
  {
    if WorkerAt(w, t) && w.threads[t].pc.Swapping? {
      var th := w.threads[t];
      if SwapResult(w.store, th.pc.job, th.pc.mutation, now).Ok? { ResultIsStored(w.store, th, now); }
    }
  }

  lemma SwapStaysCovered(w: World, t: nat, now: int, owner: string, until: int, retryable: bool)
    requires ThreadFine(w, t) && ActorOrderly(w, Swap(t, now, owner, until, retryable)) && ActorCovered(w, Swap(t, now, owner, until, retryable))
    requires SwapYieldsPriced(w, t, now) && SwapYieldsOrderly(w, t, now)
    ensures ActorStaysCovered(w, Swap(t, now, owner, until, retryable))
  {
    if WorkerAt(w, t) && w.threads[t].pc.Swapping? { SwapCovered(w, t, now, owner, until, retryable); }
  }

  lemma StartCovered(w: World, t: nat, job: Id, now: int)
    requires JobsPriced(w.store.jobs) && ActorCovered(w, StartWorker(t, job, now))
    ensures ActorStaysCovered(w, StartWorker(t, job, now))
  {
  }

  lemma WorkerlessCovered(w: World, l: Label)
    requires Workerless(l) && ActorCovered(w, l)
    ensures ActorStaysCovered(w, l)
  {
  }

  lemma ActorsStayCovered(w: World, l: Label)
    requires !Lossy(w, l) && ActorIn(w, l) && ActorOrderly(w, l) && ActorCovered(w, l) && (Actor(l).Some? ==> ThreadFine(w, Actor(l).value))
    requires LedgerFits(w.ledger, w.store.jobs) && JobsFit(w.ledger, w.store.jobs) && JobsPriced(w.store.jobs)
    requires l.Swap? ==> SwapYieldsPriced(w, l.t, l.now) && SwapYieldsOrderly(w, l.t, l.now)
    ensures ActorStaysCovered(w, l)
  {
    match l {
      case StoreStep(_) =>
      case OpenAccount(_, _) =>
      case Credit(_) =>
      case Swap(t, now, owner, until, retryable) => SwapStaysCovered(w, t, now, owner, until, retryable);
      case WorkerStep(t, a, owner, until) => WorkerStepCovered(w, t, a, owner, until);
      case CallCharge(t, g) => ChargeCovered(w, t, g);
      case StartWorker(t, job, now) => StartCovered(w, t, job, now);
      case _ => WorkerlessCovered(w, l);
    }
  }

  /** What the next state's jobs show of the job a swap stores. */
  lemma SwapYieldsBoth(w: World, t: nat, now: int, jobs': Jobs)
    requires ThreadFine(w, t) && JobsPriced(jobs') && AllOrderly(jobs')
    requires WorkerAt(w, t) && w.threads[t].pc.Swapping? && SwapResult(w.store, w.threads[t].pc.job, w.threads[t].pc.mutation, now).Ok? ==>
      jobs' == SwapResult(w.store, w.threads[t].pc.job, w.threads[t].pc.mutation, now).value.0.jobs
    ensures SwapYieldsPriced(w, t, now) && SwapYieldsOrderly(w, t, now)
  {
    PricedYields(w, t, now, jobs');
    SwapYields(w, t, now, jobs');
  }

  ghost predicate AllOrderly(jobs: Jobs) { forall id :: id in jobs ==> Bounded(jobs[id]) && Orderly(jobs[id]) }

  lemma InvJobs(w: World)
    requires ExclusiveInv(w)
    ensures JobsPriced(w.store.jobs) && AllOrderly(w.store.jobs) && Indexed(w.store)
  {
    StoreIndexed(w.store);
    ChargedIsPriced(w);
  }

  lemma ActorCoveredIn(w: World, l: Label)
    requires CoverageInv(w) && OrderlyInv(w)
    ensures ActorCovered(w, l) && ActorOrderly(w, l)
  {
  }

  lemma YieldsFromStep(w: World, l: Label)
    requires Actor(l).Some? ==> ThreadFine(w, Actor(l).value)
    requires JobsPriced(Step(w, l).store.jobs) && AllOrderly(Step(w, l).store.jobs)
    ensures l.Swap? ==> SwapYieldsPriced(w, l.t, l.now) && SwapYieldsOrderly(w, l.t, l.now)
  {
    if l.Swap? { SwapYieldsBoth(w, l.t, l.now, Step(w, l).store.jobs); }
  }

  lemma StepCovered(w: World, l: Label)
    requires ExclusiveInv(w) && LeaseExclusive(w, l) && CoverageInv(w) && !Lossy(w, l)
    ensures CoverageInv(Step(w, l))
  {
    StoreIndexed(w.store);
    ActorKnown(w, l);
    ActorCoveredIn(w, l);
    InvJobs(w);
    JobsStayCovered(w, l);
    StepOrderly(w, l);
    InvJobs(Step(w, l));
    YieldsFromStep(w, l);
    ActorsStayCovered(w, l);
    forall t | t in Step(w, l).threads && Step(w, l).threads[t].Worker? ensures PcCovered(Step(w, l).threads[t].pc) {
      if Actor(l) != Some(t) { OthersStay(w, l, t); }
    }
  }

  ghost predicate LosslessRun(labels: seq<Label>) {
    forall i :: 0 <= i < |labels| ==> !Lossy(Run(labels[..i]), labels[i])
  }

  lemma LosslessPrefix(labels: seq<Label>)
    requires LosslessRun(labels) && labels != []
    ensures LosslessRun(labels[..|labels| - 1]) && !Lossy(Run(labels[..|labels| - 1]), labels[|labels| - 1])
  {
    var shorter := labels[..|labels| - 1];
    forall i | 0 <= i < |shorter| ensures !Lossy(Run(shorter[..i]), shorter[i]) {
      assert shorter[..i] == labels[..i] && shorter[i] == labels[i];
    }
  }

  lemma {:induction false} RunCovered(labels: seq<Label>)
    requires ExclusiveRun(labels) && LosslessRun(labels)
    ensures CoverageInv(Run(labels))
    decreases |labels|
  {
    if labels != [] {
      var shorter := labels[..|labels| - 1];
      ExclusivePrefix(labels);
      LosslessPrefix(labels);
      RunCovered(shorter);
      RunOrderly(shorter);
      StepCovered(Run(shorter), labels[|labels| - 1]);
    }
  }

  /** Every finished job with a recorded charge has delivered or is compensated. */
  lemma EveryChargeIsCovered(labels: seq<Label>, id: Id)
    requires ExclusiveRun(labels) && LosslessRun(labels) && id in Run(labels).store.jobs
    ensures var j := Run(labels).store.jobs[id];
            Terminal(j) && j.money.txn.Some? ==> j.status.Succeeded? || ((j.status.Failed? || j.status.Cancelled?) && !j.comp.NotRequired?)
  {
    RunCovered(labels);
    assert Covered(Run(labels).store.jobs[id]);
  }

  // ---------------------------------------------------------------- lossy answers do lose

  /** After a lossy answer the worker is about to end the charged job without compensation. */
  ghost predicate AboutToDrop(pc: Pc, held: Job) {
    && pc.Swapping? && pc.job == held && held.money.txn.Some? && Drops(pc.mutation)
    && (pc.mutation.ByWorker? ==> pc.mutation.w.FailProvider?) && (pc.mutation.ByFinalizer? ==> pc.mutation.f.FailPermanent?)
  }

  lemma LossyAnswerDrops(pc: Pc, stored: Job, a: Answer, owner: string, until: int)
    requires LossyAnswer(pc, stored, a) && Bounded(stored) && HeldOrderly(Held(pc))
    ensures AboutToDrop(Advance(pc, stored, a, owner, until), if Held(pc).Some? then Held(pc).value else stored)
  {
  }

  lemma LossyGatewayDrops(l: Billing.Ledger, pc: Pc, g: Gateway)
    requires pc.Paying? && LossyGateway(pc.job, g) && HeldOrderly(Held(pc))
    ensures AboutToDrop(AfterCharge(pc, ThroughGateway(l, ChargeRequest(pc.job, pc.quote), Billing.Charge, g).1), pc.job)
  {
  }

  lemma DropUncovers(s: Store, job: Job, m: Mutation, now: int, id: Id)
    requires id in s.jobs && s.jobs[id].spec.id == id && SnapshotOf(Some(job), s.jobs[id]) && s.jobs[id].version == job.version
    requires !Terminal(job) && job.money.txn.Some?
    requires (m.ByWorker? && m.w.FailProvider?) || (m.ByFinalizer? && m.f.FailPermanent?)
    ensures SwapResult(s, job, m, now).Ok? && id in SwapResult(s, job, m, now).value.0.jobs
    ensures !Covered(SwapResult(s, job, m, now).value.0.jobs[id])
  {
  }

  /** The step a lossy answer prepares: nobody has touched the job since the worker read it. */
  ghost predicate ReadIsCurrent(w: World, t: nat) {
    WorkerAt(w, t) && (Held(w.threads[t].pc).Some? ==> Held(w.threads[t].pc).value.version == w.store.jobs[w.threads[t].job].version)
  }

  /** The worker holds the current state of an unfinished charged job and is about to drop it. */
  ghost predicate Dropping(w: World, t: nat) {
    && WorkerAt(w, t) && Indexed(w.store)
    && (var stored, pc := w.store.jobs[w.threads[t].job], w.threads[t].pc;
        && pc.Swapping? && AboutToDrop(pc, pc.job) && SnapshotOf(Some(pc.job), stored) && pc.job.version == stored.version && !Terminal(pc.job))
  }

  lemma LossyStepDrops(w: World, l: Label)
    requires Lossy(w, l) && ReadIsCurrent(w, l.t) && ThreadFine(w, l.t) && ActorOrderly(w, l)
    requires JobsFit(w.ledger, w.store.jobs) && (forall id :: id in w.store.jobs ==> Orderly(w.store.jobs[id]))
    ensures Dropping(Step(w, l), l.t) && Step(w, l).threads[l.t].job == w.threads[l.t].job
  {
    var th := w.threads[l.t];
    match l {
      case WorkerStep(t, a, owner, until) => LossyAnswerDrops(th.pc, w.store.jobs[th.job], a, owner, until);
      case CallCharge(t, g) => LossyGatewayDrops(w.ledger, th.pc, g);
    }
  }

  lemma DroppingUncovers(w: World, t: nat, now: int, owner: string, until: int, retryable: bool)
    requires Dropping(w, t)
    ensures var w' := Step(w, Swap(t, now, owner, until, retryable));
            w.threads[t].job in w'.store.jobs && !Covered(w'.store.jobs[w.threads[t].job])
  {
    var th := w.threads[t];
    DropUncovers(w.store, th.pc.job, th.pc.mutation, now, th.job);
  }

  /** A lossy answer that takes effect leaves a charged job failed and uncompensated. */
  lemma LossyAnswerUncovers(w: World, l: Label, now: int, owner: string, until: int, retryable: bool)
    requires ExclusiveInv(w) && Lossy(w, l) && ReadIsCurrent(w, l.t)
    ensures var w2 := Step(Step(w, l), Swap(l.t, now, owner, until, retryable));
            w.threads[l.t].job in w2.store.jobs && !Covered(w2.store.jobs[w.threads[l.t].job])
  {
    StoreIndexed(w.store);
    ActorKnown(w, l);
    LossyStepDrops(w, l);
    DroppingUncovers(Step(w, l), l.t, now, owner, until, retryable);
  }

  /** The swap of a plan made on an outdated read is refused. */
  lemma StaleSwapKeeps(w: World, t: nat, now: int, owner: string, until: int, retryable: bool)
    requires WorkerAt(w, t) && w.threads[t].pc.Swapping? && Indexed(w.store) && ThreadFine(w, t)
    requires w.threads[t].pc.job.version != w.store.jobs[w.threads[t].job].version
    ensures Step(w, Swap(t, now, owner, until, retryable)).store == w.store
  {
  }

  lemma StaleLossyStep(w: World, l: Label)
    requires Lossy(w, l) && !ReadIsCurrent(w, l.t) && ThreadFine(w, l.t) && ActorOrderly(w, l) && JobsFit(w.ledger, w.store.jobs)
    ensures var w' := Step(w, l);
            && w'.store == w.store && WorkerAt(w', l.t) && w'.threads[l.t].pc.Swapping? && w'.threads[l.t].job == w.threads[l.t].job
            && w'.threads[l.t].pc.job.version != w'.store.jobs[w'.threads[l.t].job].version
  {
    var th := w.threads[l.t];
    match l {
      case WorkerStep(t, a, owner, until) => LossyAnswerDrops(th.pc, w.store.jobs[th.job], a, owner, until);
      case CallCharge(t, g) => LossyGatewayDrops(w.ledger, th.pc, g);
    }
  }

  /** An answer or ledger call of a worker. */
  predicate IsAnswer(l: Label) { l.WorkerStep? || l.CallCharge? }

  ghost predicate CoveredAfter(w: World, l: Label, now: int, owner: string, until: int, retryable: bool)
    requires IsAnswer(l)
  {
    JobsCovered(Step(Step(w, l), Swap(l.t, now, owner, until, retryable)).store.jobs)
  }

  lemma LosslessKeepsCovered(w: World, l: Label, now: int, owner: string, until: int, retryable: bool)
    requires ExclusiveInv(w) && CoverageInv(w) && IsAnswer(l) && !Lossy(w, l)
    ensures CoveredAfter(w, l, now, owner, until, retryable)
  {
    StepCovered(w, l);
    StepOrderly(w, l);
    StepCovered(Step(w, l), Swap(l.t, now, owner, until, retryable));
  }

  lemma StaleKeepsCovered(w: World, l: Label, now: int, owner: string, until: int, retryable: bool)
    requires ExclusiveInv(w) && CoverageInv(w) && IsAnswer(l) && Lossy(w, l) && !ReadIsCurrent(w, l.t)
    ensures CoveredAfter(w, l, now, owner, until, retryable)
  {
    StoreIndexed(w.store);
    ActorKnown(w, l);
    ActorCoveredIn(w, l);
    StaleLossyStep(w, l);
    StepOrderly(w, l);
    StaleAfterStep(Step(w, l), l.t, now, owner, until, retryable);
  }

  lemma StaleAfterStep(w: World, t: nat, now: int, owner: string, until: int, retryable: bool)
    requires ExclusiveInv(w) && JobsCovered(w.store.jobs) && WorkerAt(w, t) && w.threads[t].pc.Swapping?
    requires w.threads[t].pc.job.version != w.store.jobs[w.threads[t].job].version
    ensures JobsCovered(Step(w, Swap(t, now, owner, until, retryable)).store.jobs)
  {
    StoreIndexed(w.store);
    StaleSwapKeeps(w, t, now, owner, until, retryable);
  }

  lemma LossUncovers(w: World, l: Label, now: int, owner: string, until: int, retryable: bool)
    requires ExclusiveInv(w) && IsAnswer(l) && Lossy(w, l) && ReadIsCurrent(w, l.t)
    ensures !CoveredAfter(w, l, now, owner, until, retryable)
  {
    LossyAnswerUncovers(w, l, now, owner, until, retryable);
  }

  /** After any exclusive and lossless run, one more answer and its swap leave a charge uncovered exactly if the answer is lossy on a current read. */
  lemma UncoveredIffLossy(labels: seq<Label>, l: Label, now: int, owner: string, until: int, retryable: bool)
    requires ExclusiveRun(labels) && LosslessRun(labels) && IsAnswer(l)
    ensures !CoveredAfter(Run(labels), l, now, owner, until, retryable) <==> Lossy(Run(labels), l) && ReadIsCurrent(Run(labels), l.t)
  {
    var w := Run(labels);
    RunOrderly(labels);
    RunCovered(labels);
    if !Lossy(w, l) { LosslessKeepsCovered(w, l, now, owner, until, retryable); }
    else if ReadIsCurrent(w, l.t) { LossUncovers(w, l, now, owner, until, retryable); }
    else { StaleKeepsCovered(w, l, now, owner, until, retryable); }
  }
}
