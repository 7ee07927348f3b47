/**
 In every run, however workers overlap: the snapshot a thread holds is an earlier state of the stored job,
 and a compare-and-swap that succeeds found exactly that state.
 */
module Snapshots {
  import opened Basics
  import opened GenerationModels
  import opened JobMutations
  import opened WorkflowStore
  import opened BatchTransactions
  import opened StoreInvariants
  import opened Workers
  import opened World
  import Billing

  // ---------------------------------------------------------------- store side of a step

  /** The store operation a label performs. */
  function OpOf(w: World, l: Label): StoreOp {
    match l
    case StoreStep(op) => if Outside(op) then op else Nothing
    case Swap(t, now, _, _, _) =>
      if WorkerAt(w, t) && w.threads[t].pc.Swapping? then SwapOp(w.threads[t].pc.job, w.threads[t].pc.mutation, now) else Nothing
    case CompSwap(t, now) =>
      if t in w.threads && w.threads[t].Compensator? && w.threads[t].cpc.CompSwapping?
      then SwapOp(w.threads[t].cpc.job, ByCompensation(w.threads[t].cpc.mutation), now) else Nothing
    case Publish(t, accepted, now) =>
      if accepted && t in w.threads && w.threads[t].Relay? && w.threads[t].rpc.Holding? && w.threads[t].key in w.store.outbox
         && w.store.outbox[w.threads[t].key].event.kind.FinalizeRequested?
      then Barrier(w.store.outbox[w.threads[t].key].event.batch, now) else Nothing
    case Settle(t, now) =>
      if t in w.threads && w.threads[t].Relay? && !w.threads[t].rpc.Holding?
      then (if w.threads[t].rpc.Tried? then Acknowledge(w.threads[t].key) else Reject(w.threads[t].key, now)) else Nothing
    case _ => Nothing
  }

  lemma StepDoes(w: World, l: Label)
    ensures Step(w, l).store == Do(w.store, OpOf(w, l))
  {
  }

  /** The one thread a label may change. */
  function Actor(l: Label): Option<nat> {
    match l
    case StoreStep(_) => None
    case OpenAccount(_, _) => None
    case Credit(_) => None
    case _ => Some(l.t)
  }

  lemma OthersStay(w: World, l: Label, x: nat)
    requires Actor(l) != Some(x)
    ensures x in Step(w, l).threads <==> x in w.threads
    ensures x in w.threads ==> Step(w, l).threads[x] == w.threads[x]
  {
  }

  // ---------------------------------------------------------------- snapshots

  /** The job a program point holds in its local variable. */
  function Held(pc: Pc): Option<Job> {
    match pc
    case Loaded(job) => Some(job)
    case Routing(job) => Some(job)
    case Swapping(job, _, _) => Some(job)
    case Calling(job, _) => Some(job)
    case ProviderError(job, _, _) => Some(job)
    case Quoting(job, _) => Some(job)
    case Inspecting(job, _, _) => Some(job)
    case Checking(job, _, _) => Some(job)
    case Paying(job, _, _) => Some(job)
    case Rechecking(job, _, _) => Some(job)
    case _ => None
  }

  function HeldByCompensator(cpc: CompPc): Option<Job> {
    match cpc
    case CompSwapping(job, _) => Some(job)
    case Refunding(job) => Some(job)
    case CompDone => None
  }

  lemma JobGrowsTrans(a: Job, b: Job, c: Job)
    requires JobGrows(a, b) && JobGrows(b, c)
    ensures JobGrows(a, c)
  {
  }

  /** An earlier state of the stored job, under the version it had then. */
  ghost predicate SnapshotOf(held: Option<Job>, stored: Job) {
    held.Some? ==> JobGrows(held.value, stored) && held.value.version >= 1
  }

  ghost predicate ThreadCoherent(s: Store, th: Thread) {
    match th
    case Worker(job, start, pc) => job in s.jobs && JobGrows(start, s.jobs[job]) && SnapshotOf(Held(pc), s.jobs[job])
    case Compensator(job, cpc) => job in s.jobs && SnapshotOf(HeldByCompensator(cpc), s.jobs[job])
    case Relay(key, _) => key in s.outbox
  }

  ghost predicate Coherent(w: World) {
    StoreInv(w.store) && forall t :: t in w.threads ==> ThreadCoherent(w.store, w.threads[t])
  }

  lemma ThreadStaysCoherent(s: Store, s': Store, th: Thread)
    requires ThreadCoherent(s, th) && Grows(s, s')
    ensures ThreadCoherent(s', th)
  {
    match th {
      case Worker(job, start, pc) =>
        JobGrowsTrans(start, s.jobs[job], s'.jobs[job]);
        if Held(pc).Some? { JobGrowsTrans(Held(pc).value, s.jobs[job], s'.jobs[job]); }
      case Compensator(job, cpc) =>
        if HeldByCompensator(cpc).Some? { JobGrowsTrans(HeldByCompensator(cpc).value, s.jobs[job], s'.jobs[job]); }
      case Relay(_, _) =>
    }
  }

  /** A local step keeps the snapshot, drops it, or takes a fresh one. */
  lemma AdvanceHolds(pc: Pc, stored: Job, a: Answer, owner: string, until: int)
    ensures var h := Held(Advance(pc, stored, a, owner, until)); h.None? || h == Held(pc) || h == Some(stored)
  {
  }

  lemma SwapHolds(pc: Pc, updated: Job, owner: string, until: int)
    requires pc.Swapping?
    ensures var h := Held(AfterSwap(pc, updated, owner, until)); h.None? || h == Some(updated)
  {
  }

  lemma RefusalHolds(pc: Pc, conflict: bool, commitError: Option<Failure>, retryable: bool)
    requires pc.Swapping?
    ensures Held(AfterRefusal(pc, conflict, commitError, retryable)).None?
  {
  }

  /** What a successful compare-and-swap tells: the store held the very snapshot. */
  lemma SwapFound(s: Store, job: Job, m: Mutation, now: int, id: Id)
    requires id in s.jobs && s.jobs[id].spec.id == id && SnapshotOf(Some(job), s.jobs[id])
    requires SwapResult(s, job, m, now).Ok?
    ensures job.spec.id == id && s.jobs[id].version == job.version && Stamped(s.jobs[id]) == Stamped(job)
    ensures var (s', job') := SwapResult(s, job, m, now).value; id in s'.jobs && s'.jobs[id] == job' && job'.version >= 1
  {
    var job', events := MutateEffect(s, id, job.version, m, now);
  }

  // ---------------------------------------------------------------- every step

  /** What threads need to know about the store. */
  ghost predicate Indexed(s: Store) {
    forall id :: id in s.jobs ==> s.jobs[id].spec.id == id && s.jobs[id].version >= 1
  }

  lemma StoreIndexed(s: Store)
    requires StoreInv(s)
    ensures Indexed(s)
  {
    forall id | id in s.jobs ensures s.jobs[id].spec.id == id && s.jobs[id].version >= 1 { assert JobLink(s, id); }
  }

  ghost predicate ThreadFine(w: World, t: nat) {
    Indexed(w.store) && (t in w.threads ==> ThreadCoherent(w.store, w.threads[t]))
  }

  lemma WorkerStepCoherent(s: Store, th: Thread, a: Answer, owner: string, until: int)
    requires Indexed(s) && th.Worker? && ThreadCoherent(s, th)
    ensures ThreadCoherent(s, th.(pc := Advance(th.pc, s.jobs[th.job], a, owner, until)))
  {
    AdvanceHolds(th.pc, s.jobs[th.job], a, owner, until);
  }

  lemma WorkerSwapCoherent(s: Store, th: Thread, now: int, owner: string, until: int)
    requires Indexed(s) && th.Worker? && th.pc.Swapping? && ThreadCoherent(s, th) && SwapResult(s, th.pc.job, th.pc.mutation, now).Ok?
    ensures var (s', job') := SwapResult(s, th.pc.job, th.pc.mutation, now).value;
            ThreadCoherent(s', th.(pc := AfterSwap(th.pc, job', owner, until)))
  {
    var (s', job') := SwapResult(s, th.pc.job, th.pc.mutation, now).value;
    SwapFound(s, th.pc.job, th.pc.mutation, now, th.job);
    var job1, events := MutateEffect(s, th.job, th.pc.job.version, th.pc.mutation, now);
    JobStepGrows(s, th.job, job1, s'.outbox);
    ThreadStaysCoherent(s, s', th);
    SwapHolds(th.pc, job', owner, until);
  }

  lemma CompensatorSwapCoherent(s: Store, th: Thread, now: int)
    requires Indexed(s) && th.Compensator? && th.cpc.CompSwapping?
    requires ThreadCoherent(s, th) && SwapResult(s, th.cpc.job, ByCompensation(th.cpc.mutation), now).Ok?
    ensures var (s', job') := SwapResult(s, th.cpc.job, ByCompensation(th.cpc.mutation), now).value;
            ThreadCoherent(s', th.(cpc := Refunding(job'))) && ThreadCoherent(s', th.(cpc := CompDone))
  {
    SwapFound(s, th.cpc.job, ByCompensation(th.cpc.mutation), now, th.job);
  }

  lemma ChargeHolds(pc: Pc, result: Result<Billing.Receipt, Failure>)
    requires pc.Paying?
    ensures Held(AfterCharge(pc, result)) == Held(pc)
  {
  }

  lemma RefundHolds(job: Job, result: Result<Billing.Receipt, Failure>)
    ensures HeldByCompensator(AfterRefund(job, result)) == Some(job)
  {
  }

  /** The thread a label moved is coherent with the store it leaves behind. */
  ghost predicate ActorCoheres(w: World, l: Label) {
    Actor(l).Some? && Actor(l).value in Step(w, l).threads ==> ThreadCoherent(Step(w, l).store, Step(w, l).threads[Actor(l).value])
  }

  lemma SwapCoheres(w: World, t: nat, now: int, owner: string, until: int, retryable: bool)
    requires ThreadFine(w, t)
    ensures ActorCoheres(w, Swap(t, now, owner, until, retryable))
  {
    if WorkerAt(w, t) && w.threads[t].pc.Swapping? {
      var th := w.threads[t];
      var r := SwapResult(w.store, th.pc.job, th.pc.mutation, now);
      if r.Ok? {
        WorkerSwapCoherent(w.store, th, now, owner, until);
      } else {
        var commitError := if r.error.Refused? && r.error.cause.CommitFailed? then Some(r.error.cause.failure) else None;
        RefusalHolds(th.pc, r.error.VersionConflict?, commitError, retryable);
      }
    }
  }

  lemma CompSwapCoheres(w: World, t: nat, now: int)
    requires ThreadFine(w, t)
    ensures ActorCoheres(w, CompSwap(t, now))
  {
    if t in w.threads && w.threads[t].Compensator? && w.threads[t].cpc.CompSwapping? {
      var th := w.threads[t];
      if SwapResult(w.store, th.cpc.job, ByCompensation(th.cpc.mutation), now).Ok? { CompensatorSwapCoherent(w.store, th, now); }
    }
  }

  lemma ChargeCoheres(w: World, t: nat, g: Gateway)
    requires ThreadFine(w, t)
    ensures ActorCoheres(w, CallCharge(t, g))
  {
    if t in w.threads && w.threads[t].Worker? && w.threads[t].pc.Paying? {
      var pc := w.threads[t].pc;
      ChargeHolds(pc, ThroughGateway(w.ledger, ChargeRequest(pc.job, pc.quote), Billing.Charge, g).1);
    }
  }

  lemma RefundCoheres(w: World, t: nat, g: Gateway)
    requires ThreadFine(w, t)
    ensures ActorCoheres(w, CallRefund(t, g))
  {
    if t in w.threads && w.threads[t].Compensator? && w.threads[t].cpc.Refunding? && w.threads[t].cpc.job.money.txn.Some? {
      var job := w.threads[t].cpc.job;
      RefundHolds(job, ThroughGateway(w.ledger, RefundRequest(job), Billing.Refund, g).1);
    }
  }

  lemma StartWorkerCoheres(w: World, t: nat, job: Id, now: int)
    requires ThreadFine(w, t)
    ensures ActorCoheres(w, StartWorker(t, job, now))
  {
  }

  lemma StartCompensationCoheres(w: World, t: nat, job: Id, now: int, owner: string, until: int)
    requires ThreadFine(w, t)
    ensures ActorCoheres(w, StartCompensation(t, job, now, owner, until))
  {
  }

  lemma StartManualCoheres(w: World, t: nat, job: Id, points: int, refund: Option<Billing.TxnId>)
    requires ThreadFine(w, t)
    ensures ActorCoheres(w, StartManual(t, job, points, refund))
  {
  }

  lemma TakeCoheres(w: World, t: nat, key: OutboxKey)
    requires ThreadFine(w, t)
    ensures ActorCoheres(w, Take(t, key))
  {
  }

  lemma WorkerStepCoheres(w: World, t: nat, a: Answer, owner: string, until: int)
    requires ThreadFine(w, t)
    ensures ActorCoheres(w, WorkerStep(t, a, owner, until))
  {
    if WorkerAt(w, t) { WorkerStepCoherent(w.store, w.threads[t], a, owner, until); }
  }

  lemma RelayCoheres(w: World, l: Label)
    requires (l.Publish? || l.Settle? || l.Leave?) && ThreadFine(w, l.t) && Grows(w.store, Step(w, l).store)
    ensures ActorCoheres(w, l)
  {
    if l.t in w.threads {
      ThreadStaysCoherent(w.store, Step(w, l).store, w.threads[l.t]);
    }
  }

  lemma AllActorsCohere(w: World, l: Label)
    requires Actor(l).Some? ==> ThreadFine(w, Actor(l).value)
    requires Grows(w.store, Step(w, l).store)
    ensures ActorCoheres(w, l)
  {
    match l {
      case StoreStep(_) =>
      case OpenAccount(_, _) =>
      case Credit(_) =>
      case Swap(t, now, owner, until, retryable) => SwapCoheres(w, t, now, owner, until, retryable);
      case CompSwap(t, now) => CompSwapCoheres(w, t, now);
      case CallCharge(t, g) => ChargeCoheres(w, t, g);
      case CallRefund(t, g) => RefundCoheres(w, t, g);
      case WorkerStep(t, a, owner, until) => WorkerStepCoheres(w, t, a, owner, until);
      case Publish(_, _, _) => RelayCoheres(w, l);
      case Settle(_, _) => RelayCoheres(w, l);
      case Leave(_) => RelayCoheres(w, l);
      case StartWorker(t, job, now) => StartWorkerCoheres(w, t, job, now);
      case StartCompensation(t, job, now, owner, until) => StartCompensationCoheres(w, t, job, now, owner, until);
      case StartManual(t, job, points, refund) => StartManualCoheres(w, t, job, points, refund);
      case Take(t, key) => TakeCoheres(w, t, key);
    }
  }

  /** Every step, of whichever thread, keeps all snapshots coherent. */
  lemma StepCoherent(w: World, l: Label)
    requires Coherent(w)
    ensures Coherent(Step(w, l)) && Grows(w.store, Step(w, l).store)
  {
    var w' := Step(w, l);
    StepDoes(w, l);
    DoKeeps(w.store, OpOf(w, l));
    StoreIndexed(w.store);
    forall t | t in w'.threads ensures ThreadCoherent(w'.store, w'.threads[t]) {
      if Actor(l) == Some(t) { AllActorsCohere(w, l); }
      else {
        OthersStay(w, l, t);
        ThreadStaysCoherent(w.store, w'.store, w.threads[t]);
      }
    }
  }

  lemma {:induction false} RunCoherent(labels: seq<Label>)
    ensures Coherent(Run(labels))
    decreases |labels|
  {
    if labels != [] {
      RunCoherent(labels[..|labels| - 1]);
      StepCoherent(Run(labels[..|labels| - 1]), labels[|labels| - 1]);
    }
  }
}
