/** Runs in which the lease keeps every job to one worker at a time. */
module ExclusiveRuns {
  import opened Basics
  import opened GenerationModels
  import opened JobMutations
  import opened WorkflowStore
  import opened BatchTransactions
  import opened StoreInvariants
  import opened Workers
  import opened World
  import opened Snapshots
  import opened StoredChanges
  import opened MoneyRules
  import opened MoneyRuns
  import opened ExclusiveRules
  import Billing

  ghost predicate Solo(w: World) {
    forall t, u :: t in w.threads && u in w.threads && w.threads[t].Worker? && w.threads[u].Worker? && w.threads[t].job == w.threads[u].job ==> t == u
  }

  ghost predicate ThreadOrderly(jobs: Jobs, th: Thread) {
    th.Worker? ==> th.job in jobs && PcOrderly(th.pc, jobs[th.job]) && Progresses(th.pc, th.start, jobs[th.job])
  }

  ghost predicate OrderlyInv(w: World) {
    && Solo(w)
    && (forall id :: id in w.store.jobs ==> Orderly(w.store.jobs[id]))
    && (forall t :: t in w.threads ==> ThreadOrderly(w.store.jobs, w.threads[t]))
  }

  /** All that is known of a world reached exclusively. */
  ghost predicate ExclusiveInv(w: World) { Coherent(w) && MoneyInv(w) && OrderlyInv(w) }

  // ---------------------------------------------------------------- stored jobs

  /** A change made by anyone but a worker leaves a running finalization alone and gives no budget back. */
  ghost predicate Elsewhere(a: Job, b: Job) {
    && (a.status.Finalizing? ==> b.status.Finalizing?)
    && (a.cancelRequested ==> b.cancelRequested)
    && (Terminal(a) ==> Terminal(b))
    && (b.cancelRequested || Terminal(b) || Left(b) == Left(a))
  }

  ghost predicate ActorOrderly(w: World, l: Label) {
    Actor(l).Some? && Actor(l).value in w.threads ==> ThreadOrderly(w.store.jobs, w.threads[Actor(l).value])
  }

  lemma CompensationIsElsewhere(a: Job, m: CompMutation, now: int, b: Job)
    requires StepsTo(a, ByCompensation(m), now, b) && Bounded(a) && Orderly(a) && InCompensation(a)
    ensures Orderly(b) && Elsewhere(a, b)
  {
    CompensationKeepsOrder(a, m, now, b);
  }

  lemma CancelIsElsewhere(a: Job, now: int)
    ensures Elsewhere(a, CancelledNow(a, now))
  {
  }

  lemma ChangeKeepsOrder(w: World, l: Label, a: Job, b: Job)
    requires JobChanged(w, l, a, b) && Bounded(a) && Orderly(a) && a.spec.id in w.store.jobs && w.store.jobs[a.spec.id] == a
    requires ActorIn(w, l) && ActorOrderly(w, l)
    ensures Orderly(b) && (!Swapped(w, l, a, b) || !l.Swap? ==> Elsewhere(a, b))
  {
    if Swapped(w, l, a, b) {
      if l.Swap? {
        var m := w.threads[l.t].pc.mutation;
        if m.ByWorker? { WorkerKeepsOrder(a, m.w, l.now, b); } else { FinalizerKeepsOrder(a, m.f, l.now, b); }
      } else {
        CompensationIsElsewhere(a, w.threads[l.t].cpc.mutation, l.now, b);
      }
    } else if CancelledBy(l, a, b) {
      CancelKeepsOrder(a, l.op.now);
      CancelIsElsewhere(a, l.op.now);
    }
  }

  lemma UnstartedOrderly(j: Job)
    requires Unstarted(j)
    ensures Orderly(j)
  {
  }

  /** How each stored job developed, seen from everyone but the acting worker. */
  ghost predicate Quiet(w: World, l: Label, jobs': Jobs) {
    forall id :: id in w.store.jobs ==>
      && id in jobs'
      && (Elsewhere(w.store.jobs[id], jobs'[id]) || (l.Swap? && l.t in w.threads && w.threads[l.t].Worker? && w.threads[l.t].job == id))
  }

  lemma JobsStayOrderly(w: World, l: Label)
    requires Coherent(w) && ActorIn(w, l) && ActorOrderly(w, l)
    requires forall id :: id in w.store.jobs ==> Bounded(w.store.jobs[id]) && Orderly(w.store.jobs[id])
    ensures forall id :: id in Step(w, l).store.jobs ==> Orderly(Step(w, l).store.jobs[id])
    ensures Quiet(w, l, Step(w, l).store.jobs)
  {
    var jobs, jobs' := w.store.jobs, Step(w, l).store.jobs;
    StepCoherent(w, l);
    StoreIndexed(w.store);
    forall id | id in jobs'
      ensures Orderly(jobs'[id])
      ensures id in jobs ==> Elsewhere(jobs[id], jobs'[id]) || (l.Swap? && l.t in w.threads && w.threads[l.t].Worker? && w.threads[l.t].job == id)
    {
      StoredChange(w, l, id);
      if id in jobs { ChangeKeepsOrder(w, l, jobs[id], jobs'[id]); } else { UnstartedOrderly(jobs'[id]); }
    }
  }

  // ---------------------------------------------------------------- threads

  lemma BystanderOrderly(jobs: Jobs, jobs': Jobs, th: Thread)
    requires ThreadOrderly(jobs, th) && (th.Worker? ==> th.job in jobs' && Elsewhere(jobs[th.job], jobs'[th.job]))
    ensures ThreadOrderly(jobs', th)
  {
  }

  ghost predicate ActorStaysOrderly(w: World, l: Label) {
    Actor(l).Some? && Actor(l).value in Step(w, l).threads ==> ThreadOrderly(Step(w, l).store.jobs, Step(w, l).threads[Actor(l).value])
  }

  lemma SwappedOrderly(s: Store, th: Thread, now: int, owner: string, until: int)
    requires Indexed(s) && th.Worker? && th.pc.Swapping? && ThreadCoherent(s, th) && ThreadOrderly(s.jobs, th) && !th.pc.mutation.ByCompensation?
    requires SwapResult(s, th.pc.job, th.pc.mutation, now).Ok?
    requires Bounded(SwapResult(s, th.pc.job, th.pc.mutation, now).value.1) && Orderly(SwapResult(s, th.pc.job, th.pc.mutation, now).value.1)
    ensures var (s', b) := SwapResult(s, th.pc.job, th.pc.mutation, now).value;
            ThreadOrderly(s'.jobs, th.(pc := AfterSwap(th.pc, b, owner, until)))
  {
    var (s', b) := SwapResult(s, th.pc.job, th.pc.mutation, now).value;
    SwapFound(s, th.pc.job, th.pc.mutation, now, th.job);
    assert StepsTo(s.jobs[th.job], th.pc.mutation, now, b);
    AfterSwapIsOrderly(th.pc, s.jobs[th.job], now, b, owner, until);
    SwapSpends(th.pc, s.jobs[th.job], now, b, owner, until);
  }

  lemma RefusedOrderly(jobs: Jobs, th: Thread, conflict: bool, commitError: Option<Failure>, retryable: bool)
    requires th.Worker? && th.pc.Swapping? && ThreadOrderly(jobs, th)
    ensures ThreadOrderly(jobs, th.(pc := AfterRefusal(th.pc, conflict, commitError, retryable)))
  {
    AfterRefusalIsOrderly(th.pc, jobs[th.job], conflict, commitError, retryable);
  }

  ghost predicate SwapYieldsOrderly(w: World, t: nat, now: int) {
    WorkerAt(w, t) && w.threads[t].pc.Swapping? ==>
      var r := SwapResult(w.store, w.threads[t].pc.job, w.threads[t].pc.mutation, now);
      r.Ok? ==> Bounded(r.value.1) && Orderly(r.value.1)
  }

  lemma ResultIsStored(s: Store, th: Thread, now: int)
    requires Indexed(s) && th.Worker? && th.pc.Swapping? && ThreadCoherent(s, th) && SwapResult(s, th.pc.job, th.pc.mutation, now).Ok?
    ensures var (s', b) := SwapResult(s, th.pc.job, th.pc.mutation, now).value; th.job in s'.jobs && s'.jobs[th.job] == b
  {
    SwapFound(s, th.pc.job, th.pc.mutation, now, th.job);
  }

  lemma SwapYields(w: World, t: nat, now: int, jobs': Jobs)
    requires ThreadFine(w, t) && forall id :: id in jobs' ==> Bounded(jobs'[id]) && Orderly(jobs'[id])
    requires WorkerAt(w, t) && w.threads[t].pc.Swapping? && SwapResult(w.store, w.threads[t].pc.job, w.threads[t].pc.mutation, now).Ok? ==>
      jobs' == SwapResult(w.store, w.threads[t].pc.job, w.threads[t].pc.mutation, now).value.0.jobs
    ensures SwapYieldsOrderly(w, t, now)
  {
    if WorkerAt(w, t) && w.threads[t].pc.Swapping? {
      var th := w.threads[t];
      if SwapResult(w.store, th.pc.job, th.pc.mutation, now).Ok? { ResultIsStored(w.store, th, now); }
    }
  }

  lemma SwapOrderly(w: World, t: nat, now: int, owner: string, until: int, retryable: bool)
    requires ThreadFine(w, t) && t in w.threads && ThreadOrderly(w.store.jobs, w.threads[t])
    requires WorkerAt(w, t) && w.threads[t].pc.Swapping? && !w.threads[t].pc.mutation.ByCompensation? && SwapYieldsOrderly(w, t, now)
    ensures var w' := WorkerSwap(w, t, now, owner, until, retryable); ThreadOrderly(w'.store.jobs, w'.threads[t])
  {
    var th := w.threads[t];
    var r := SwapResult(w.store, th.pc.job, th.pc.mutation, now);
    if r.Ok? {
      SwappedOrderly(w.store, th, now, owner, until);
    } else {
      var commitError := if r.error.Refused? && r.error.cause.CommitFailed? then Some(r.error.cause.failure) else None;
      RefusedOrderly(w.store.jobs, th, r.error.VersionConflict?, commitError, retryable);
    }
  }

  lemma SwapStaysOrderly(w: World, t: nat, now: int, owner: string, until: int, retryable: bool)
    requires ThreadFine(w, t) && ActorIn(w, Swap(t, now, owner, until, retryable)) && ActorOrderly(w, Swap(t, now, owner, until, retryable))
    requires SwapYieldsOrderly(w, t, now)
    ensures ActorStaysOrderly(w, Swap(t, now, owner, until, retryable))
  {
    if WorkerAt(w, t) && w.threads[t].pc.Swapping? { SwapOrderly(w, t, now, owner, until, retryable); }
  }

  lemma WorkerStepOrderly(w: World, t: nat, a: Answer, owner: string, until: int)
    requires ActorOrderly(w, WorkerStep(t, a, owner, until))
    requires forall id :: id in w.store.jobs ==> Bounded(w.store.jobs[id]) && Orderly(w.store.jobs[id])
    ensures ActorStaysOrderly(w, WorkerStep(t, a, owner, until))
  {
    if WorkerAt(w, t) {
      var th, stored := w.threads[t], w.store.jobs[w.threads[t].job];
      AdvanceIsOrderly(th.pc, stored, a, owner, until);
      AdvanceSpends(th.pc, stored, a, owner, until);
    }
  }

  lemma ChargeOrderly(w: World, t: nat, g: Gateway)
    requires ActorOrderly(w, CallCharge(t, g))
    ensures ActorStaysOrderly(w, CallCharge(t, g))
  {
    if WorkerAt(w, t) && w.threads[t].pc.Paying? {
      var th := w.threads[t];
      var (l', result) := ThroughGateway(w.ledger, ChargeRequest(th.pc.job, th.pc.quote), Billing.Charge, g);
      AfterChargeIsOrderly(th.pc, w.store.jobs[th.job], result);
    }
  }

  lemma StartOrderly(w: World, t: nat, job: Id, now: int)
    requires ActorOrderly(w, StartWorker(t, job, now))
    requires forall id :: id in w.store.jobs ==> Bounded(w.store.jobs[id]) && Orderly(w.store.jobs[id])
    ensures ActorStaysOrderly(w, StartWorker(t, job, now))
  {
  }

  /** Labels that move no worker. */
  predicate Workerless(l: Label) {
    l.StartCompensation? || l.StartManual? || l.CompSwap? || l.CallRefund? || l.Take? || l.Publish? || l.Settle? || l.Leave?
  }

  lemma WorkerlessOrderly(w: World, l: Label)
    requires Workerless(l) && ActorOrderly(w, l) && Quiet(w, l, Step(w, l).store.jobs)
    ensures ActorStaysOrderly(w, l)
  {
    if l.t in w.threads { BystanderOrderly(w.store.jobs, Step(w, l).store.jobs, w.threads[l.t]); }
  }

  lemma ActorsStayOrderly(w: World, l: Label)
    requires ActorIn(w, l) && ActorOrderly(w, l) && (Actor(l).Some? ==> ThreadFine(w, Actor(l).value))
    requires forall id :: id in w.store.jobs ==> Bounded(w.store.jobs[id]) && Orderly(w.store.jobs[id])
    requires forall id :: id in Step(w, l).store.jobs ==> Bounded(Step(w, l).store.jobs[id]) && Orderly(Step(w, l).store.jobs[id])
    requires Quiet(w, l, Step(w, l).store.jobs)
    ensures ActorStaysOrderly(w, l)
  {
    match l {
      case StoreStep(_) =>
      case OpenAccount(_, _) =>
      case Credit(_) =>
      case Swap(t, now, owner, until, retryable) =>
        SwapYields(w, t, now, Step(w, l).store.jobs);
        SwapStaysOrderly(w, t, now, owner, until, retryable);
      case WorkerStep(t, a, owner, until) => WorkerStepOrderly(w, t, a, owner, until);
      case CallCharge(t, g) => ChargeOrderly(w, t, g);
      case StartWorker(t, job, now) => StartOrderly(w, t, job, now);
      case _ => WorkerlessOrderly(w, l);
    }
  }

  lemma WorkersRemain(w: World, l: Label, t: nat)
    requires t in Step(w, l).threads && Step(w, l).threads[t].Worker?
    ensures (t in w.threads && w.threads[t].Worker? && w.threads[t].job == Step(w, l).threads[t].job)
         || (l.StartWorker? && l.t == t && Step(w, l).threads[t].job == l.job)
  {
  }

  lemma SoloKept(w: World, l: Label)
    requires Solo(w) && LeaseExclusive(w, l)
    ensures Solo(Step(w, l))
  {
    var w' := Step(w, l);
    forall t, u | t in w'.threads && u in w'.threads && w'.threads[t].Worker? && w'.threads[u].Worker? && w'.threads[t].job == w'.threads[u].job ensures t == u {
      WorkersRemain(w, l, t);
      WorkersRemain(w, l, u);
    }
  }

  lemma StepOrderly(w: World, l: Label)
    requires ExclusiveInv(w) && LeaseExclusive(w, l)
    ensures ExclusiveInv(Step(w, l))
  {
    var w' := Step(w, l);
    StepCoherent(w, l);
    StepKeepsMoney(w, l);
    ActorKnown(w, l);
    JobsStayOrderly(w, l);
    ActorsStayOrderly(w, l);
    SoloKept(w, l);
    forall t | t in w'.threads ensures ThreadOrderly(w'.store.jobs, w'.threads[t]) {
      if Actor(l) != Some(t) {
        OthersStay(w, l, t);
        BystanderOrderly(w.store.jobs, w'.store.jobs, w.threads[t]);
      }
    }
  }

  lemma ExclusivePrefix(labels: seq<Label>)
    requires ExclusiveRun(labels) && labels != []
    ensures ExclusiveRun(labels[..|labels| - 1])
    ensures LeaseExclusive(Run(labels[..|labels| - 1]), labels[|labels| - 1])
  {
    var shorter := labels[..|labels| - 1];
    forall i | 0 <= i < |shorter| ensures LeaseExclusive(Run(shorter[..i]), shorter[i]) {
      assert shorter[..i] == labels[..i] && shorter[i] == labels[i];
    }
  }

  lemma {:induction false} RunOrderly(labels: seq<Label>)
    requires ExclusiveRun(labels)
    ensures ExclusiveInv(Run(labels))
    decreases |labels|
  {
    if labels == [] {
      RunKeepsMoney(labels);
    } else {
      ExclusivePrefix(labels);
      RunOrderly(labels[..|labels| - 1]);
      StepOrderly(Run(labels[..|labels| - 1]), labels[|labels| - 1]);
    }
  }

  /** Each completed call of an uncancelled job ends the job or spends part of a budget that never runs below zero. */
  lemma WorkerProgress(labels: seq<Label>, t: nat)
    requires ExclusiveRun(labels)
    requires t in Run(labels).threads && Run(labels).threads[t].Worker? && Run(labels).threads[t].pc.Finished?
    ensures var w := Run(labels);
            var th := w.threads[t];
            && th.job in w.store.jobs
            && (var job := w.store.jobs[th.job];
                job.cancelRequested || Terminal(job) || 0 <= Left(job) < Left(th.start))
  {
    RunOrderly(labels);
    var w := Run(labels);
    assert ThreadOrderly(w.store.jobs, w.threads[t]);
    assert Bounded(w.store.jobs[w.threads[t].job]) && Orderly(w.store.jobs[w.threads[t].job]);
  }
}
