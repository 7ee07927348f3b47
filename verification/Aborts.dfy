/**
 When a worker's call can be given up: under the lease, as long as nobody cancels the job, no compare-and-swap of its worker
 is refused for a version or a transition, so a call aborts only on an answer from outside.
 */
module Aborts {
  import opened Basics
  import opened GenerationModels
  import opened JobMutations
  import opened WorkflowStore
  import opened BatchTransactions
  import opened StoreInvariants
  import opened Workers
  import opened World
  import opened Snapshots
  import opened StoredChanges
  import opened MoneyRules
  import opened MoneyRuns
  import opened ExclusiveRules
  import opened ExclusiveRuns
  import Billing

  // ---------------------------------------------------------------- what the worker can rely on

  /** What the held job's status must be for the queued mutation to be a legal move. */
  predicate StatusPlan(pc: Pc) {
    match pc
    case Swapping(job, ByWorker(w), _) =>
      (w.Wait? || w.ProviderRetry? || w.Complete? ==> job.status.Running?) && (w.RecoverComplete? ==> !job.status.Queued?)
    case Swapping(job, ByFinalizer(f), _) => f.BeginFinalize? ==> !job.status.Queued?
    case _ => true
  }

  /** Unless the job is cancelled, the worker holds its current state and never meets a conflict. */
  ghost predicate Steady(pc: Pc, stored: Job) {
    || stored.cancelRequested
    || (&& (Held(pc).Some? ==> Held(pc).value.version == stored.version)
        && !pc.QuoteRereading? && !pc.ChargeRereading? && (pc.Entering? ==> !stored.status.Queued?) && StatusPlan(pc))
  }

  ghost predicate ThreadSteady(jobs: Jobs, th: Thread) { th.Worker? ==> th.job in jobs && Steady(th.pc, jobs[th.job]) }

  ghost predicate SteadyInv(w: World) { forall t :: t in w.threads ==> ThreadSteady(w.store.jobs, w.threads[t]) }

  // ---------------------------------------------------------------- local rules

  lemma ProcessStatus(pc: Pc, a: Answer, owner: string, until: int)
    requires InProcess(pc) && HeldOrderly(Held(pc)) && PcPlanned(pc)
    ensures StatusPlan(AdvanceProcess(pc, a, owner, until))
    ensures AdvanceProcess(pc, a, owner, until).Entering? ==> Held(pc).Some? && !Held(pc).value.status.Queued?
    ensures !AdvanceProcess(pc, a, owner, until).QuoteRereading? && !AdvanceProcess(pc, a, owner, until).ChargeRereading?
  {
    match pc {
      case Loaded(job) => RecoverStatus(job, a, Routing(job), ThenRoute, owner, until);
      case ProviderError(job, f, _) => RecoverStatus(job, a, ProviderError(job, f, true), ThenProviderError(f), owner, until);
      case Calling(job, call) => CallStatus(job, call, a, owner, until);
      case Routing(_) =>
    }
  }

  /** A point of the provider phase, or one whose queued mutation suits the job's status. */
  ghost predicate Suits(pc: Pc, job: Job) {
    StatusPlan(pc) && (pc.Entering? ==> !job.status.Queued?) && !pc.QuoteRereading? && !pc.ChargeRereading?
  }

  lemma RecoverStatus(job: Job, a: Answer, otherwise: Pc, partial: Next, owner: string, until: int)
    requires Suits(otherwise, job)
    ensures !job.status.Queued? ==> Suits(Recover(job, a, otherwise, partial, owner, until), job)
  {
  }

  lemma CallStatus(job: Job, call: Call, a: Answer, owner: string, until: int)
    requires job.status.Running?
    ensures Suits(AfterCall(job, call, a, owner, until), job)
  {
  }

  lemma FinalizeStatus(pc: Pc, stored: Job, a: Answer)
    requires !InProcess(pc) && Steady(pc, stored) && !stored.cancelRequested
    ensures StatusPlan(AdvanceFinalize(pc, stored, a))
    ensures AdvanceFinalize(pc, stored, a).Entering? ==> pc.Entering?
    ensures !AdvanceFinalize(pc, stored, a).QuoteRereading? && !AdvanceFinalize(pc, stored, a).ChargeRereading?
  {
  }

  lemma AdvanceSteady(pc: Pc, stored: Job, a: Answer, owner: string, until: int)
    requires Steady(pc, stored) && HeldOrderly(Held(pc)) && PcPlanned(pc) && SnapshotOf(Held(pc), stored)
    ensures Steady(Advance(pc, stored, a, owner, until), stored)
  {
    if !stored.cancelRequested {
      if InProcess(pc) {
        ProcessStatus(pc, a, owner, until);
        ProcessHolds(pc, a, owner, until);
      } else {
        FinalizeStatus(pc, stored, a);
        FinalizeHolds(pc, stored, a);
      }
    }
  }

  lemma WorkerMoveLegal(a: Job, m: WorkerMutation, now: int)
    requires !Terminal(a) && Orderly(a) && Planned(a, ByWorker(m))
    requires (m.Wait? || m.ProviderRetry? || m.Complete? ==> a.status.Running?) && (m.RecoverComplete? ==> !a.status.Queued?)
    ensures ApplyWorker(m, a, now).Ok?
    ensures var b := ApplyWorker(m, a, now).value.job; b.status == a.status || JobTransition(a.status, b.status)
  {
  }

  lemma FinalizerMoveLegal(a: Job, m: FinalMutation, now: int)
    requires !Terminal(a) && (if m.BeginFinalize? then !a.status.Queued? else a.status.Finalizing?) && ApplyFinal(m, a, now).Ok?
    ensures var b := ApplyFinal(m, a, now).value.job; b.status == a.status || JobTransition(a.status, b.status)
  {
  }

  /** Only the commit itself can still refuse. */
  lemma FinalizerApplies(l: Billing.Ledger, a: Job, m: FinalMutation, now: int)
    requires !a.cancelRequested && JobMoney(l, a) && ChargeGuarded(l, a.spec.id, m)
    ensures ApplyFinal(m, a, now).Ok? || (m.Commit? && ApplyFinal(m, a, now).error.CommitFailed?)
  {
  }

  /** The swap goes through, or the commit it carries was refused. */
  ghost predicate GoesThrough(r: Result<(Store, Job), Error>, m: Mutation) {
    r.Ok? || (m.ByFinalizer? && m.f.Commit? && r.error.Refused? && r.error.cause.CommitFailed?)
  }

  lemma HeldIsStored(s: Store, th: Thread)
    requires Indexed(s) && th.Worker? && th.pc.Swapping? && ThreadCoherent(s, th) && ThreadSteady(s.jobs, th) && !s.jobs[th.job].cancelRequested
    ensures th.pc.job.spec.id == th.job && Stamped(th.pc.job) == Stamped(s.jobs[th.job]) && th.pc.job.version == s.jobs[th.job].version
  {
  }

  lemma SwapGoesThrough(s: Store, l: Billing.Ledger, th: Thread, now: int)
    requires Indexed(s) && th.Worker? && th.pc.Swapping? && ThreadCoherent(s, th) && ThreadOrderly(s.jobs, th) && ThreadSteady(s.jobs, th)
    requires !s.jobs[th.job].cancelRequested && JobMoney(l, s.jobs[th.job]) && ThreadFits(l, s.jobs, th)
    ensures GoesThrough(SwapResult(s, th.pc.job, th.pc.mutation, now), th.pc.mutation)
  {
    var a, m := s.jobs[th.job], th.pc.mutation;
    HeldIsStored(s, th);
    MoveIsLegal(l, a, th.pc, now);
  }

  lemma MoveIsLegal(l: Billing.Ledger, a: Job, pc: Pc, now: int)
    requires pc.Swapping? && Stamped(pc.job) == Stamped(a) && PcOrderly(pc, a) && StatusPlan(pc) && !a.cancelRequested
    requires JobMoney(l, a) && PcMoney(l, a.spec.id, pc) && !pc.mutation.ByCompensation?
    ensures var r := Apply(pc.mutation, a, now);
            && (r.Ok? ==> r.value.job.status == a.status || JobTransition(a.status, r.value.job.status))
            && (r.Err? ==> pc.mutation.ByFinalizer? && pc.mutation.f.Commit? && r.error.CommitFailed?)
  {
    if pc.mutation.ByWorker? {
      WorkerMoveLegal(a, pc.mutation.w, now);
    } else {
      FinalizerApplies(l, a, pc.mutation.f, now);
      if ApplyFinal(pc.mutation.f, a, now).Ok? { FinalizerMoveLegal(a, pc.mutation.f, now); }
    }
  }

  lemma AfterSwapSteady(pc: Pc, a: Job, now: int, b: Job, owner: string, until: int)
    requires pc.Swapping? && PcPlanned(pc) && StepsTo(a, pc.mutation, now, b)
    ensures Steady(AfterSwap(pc, b, owner, until), b) && (!AfterSwap(pc, b, owner, until).Aborted? || pc.next.ThenQuoted?)
  {
    SwapHolds(pc, b, owner, until);
    if pc.next.ThenFinalize? { FinalizeFollows(a, pc.mutation.w, now, b); }
  }

  lemma FinalizeFollows(a: Job, m: WorkerMutation, now: int, b: Job)
    requires StepsTo(a, ByWorker(m), now, b) && (m.Complete? || m.RecoverComplete? || m.ClaimFinalization?)
    ensures b.status.Finalizing?
  {
  }

  lemma FrozenFollows(a: Job, m: FinalMutation, now: int, b: Job)
    requires StepsTo(a, ByFinalizer(m), now, b) && m.FreezeQuote?
    ensures b.quote.Some?
  {
  }

  // ---------------------------------------------------------------- steps

  /** A change that a worker with the job in hand does not have to fear: none it can see, a cancel, or one of a finished job. */
  ghost predicate Mild(a: Job, b: Job) {
    Stamped(a) == Stamped(b) || b.cancelRequested || (Terminal(a) && b.status == a.status && b.cancelRequested == a.cancelRequested)
  }

  lemma ChangeIsMild(w: World, l: Label, a: Job, b: Job)
    requires JobChanged(w, l, a, b) && Bounded(a) && Orderly(a) && ActorIn(w, l) && !l.Swap?
    ensures Mild(a, b)
  {
    if Swapped(w, l, a, b) { CompensationKeepsOrder(a, w.threads[l.t].cpc.mutation, l.now, b); }
  }

  /** Every job but the acting worker's own changes mildly. */
  ghost predicate MildElsewhere(w: World, l: Label, jobs': Jobs) {
    forall id :: id in w.store.jobs ==>
      && id in jobs'
      && (Mild(w.store.jobs[id], jobs'[id]) || (l.Swap? && l.t in w.threads && w.threads[l.t].Worker? && w.threads[l.t].job == id))
  }

  lemma JobsChangeMildly(w: World, l: Label)
    requires Coherent(w) && ActorIn(w, l) && forall id :: id in w.store.jobs ==> Bounded(w.store.jobs[id]) && Orderly(w.store.jobs[id])
    ensures MildElsewhere(w, l, Step(w, l).store.jobs)
  {
    var jobs, jobs' := w.store.jobs, Step(w, l).store.jobs;
    StepCoherent(w, l);
    StoreIndexed(w.store);
    forall id | id in jobs
      ensures id in jobs' && (Mild(jobs[id], jobs'[id]) || (l.Swap? && l.t in w.threads && w.threads[l.t].Worker? && w.threads[l.t].job == id))
    {
      StoredChange(w, l, id);
      if !l.Swap? { ChangeIsMild(w, l, jobs[id], jobs'[id]); }
    }
  }

  lemma BystanderSteady(s: Store, jobs': Jobs, th: Thread)
    requires ThreadCoherent(s, th) && ThreadOrderly(s.jobs, th) && ThreadSteady(s.jobs, th)
    requires th.Worker? ==> th.job in jobs' && Mild(s.jobs[th.job], jobs'[th.job])
    ensures ThreadSteady(jobs', th)
  {
  }

  ghost predicate ActorSteady(w: World, l: Label) {
    Actor(l).Some? && Actor(l).value in w.threads ==> ThreadSteady(w.store.jobs, w.threads[Actor(l).value])
  }

  ghost predicate ActorStaysSteady(w: World, l: Label) {
    Actor(l).Some? && Actor(l).value in Step(w, l).threads ==> ThreadSteady(Step(w, l).store.jobs, Step(w, l).threads[Actor(l).value])
  }

  lemma WorkerStepSteady(w: World, t: nat, a: Answer, owner: string, until: int)
    requires ThreadFine(w, t) && ActorOrderly(w, WorkerStep(t, a, owner, until)) && ActorSteady(w, WorkerStep(t, a, owner, until))
    ensures ActorStaysSteady(w, WorkerStep(t, a, owner, until))
  {
    if WorkerAt(w, t) { AdvanceSteady(w.threads[t].pc, w.store.jobs[w.threads[t].job], a, owner, until); }
  }

  lemma ChargeSteady(w: World, t: nat, g: Gateway)
    requires ActorSteady(w, CallCharge(t, g))
    ensures ActorStaysSteady(w, CallCharge(t, g))
  {
  }

  lemma StartSteady(w: World, t: nat, job: Id, now: int)
    requires ActorSteady(w, StartWorker(t, job, now))
    ensures ActorStaysSteady(w, StartWorker(t, job, now))
  {
  }

  /** The thread after its swap, whatever came of it. */
  lemma SwappedSteady(s: Store, l: Billing.Ledger, th: Thread, now: int, owner: string, until: int)
    requires Indexed(s) && th.Worker? && th.pc.Swapping? && ThreadCoherent(s, th) && ThreadOrderly(s.jobs, th)
    requires SwapResult(s, th.pc.job, th.pc.mutation, now).Ok?
    ensures var (s', b) := SwapResult(s, th.pc.job, th.pc.mutation, now).value;
            ThreadSteady(s'.jobs, th.(pc := AfterSwap(th.pc, b, owner, until))) && !AfterSwap(th.pc, b, owner, until).Aborted?
  {
    var (s', b) := SwapResult(s, th.pc.job, th.pc.mutation, now).value;
    SwapFound(s, th.pc.job, th.pc.mutation, now, th.job);
    assert StepsTo(s.jobs[th.job], th.pc.mutation, now, b);
    AfterSwapSteady(th.pc, s.jobs[th.job], now, b, owner, until);
    if th.pc.next.ThenQuoted? { FrozenFollows(s.jobs[th.job], th.pc.mutation.f, now, b); }
  }

  lemma RefusedSteady(s: Store, l: Billing.Ledger, th: Thread, now: int, retryable: bool)
    requires Indexed(s) && th.Worker? && th.pc.Swapping? && ThreadCoherent(s, th) && ThreadOrderly(s.jobs, th) && ThreadSteady(s.jobs, th)
    requires JobMoney(l, s.jobs[th.job]) && ThreadFits(l, s.jobs, th) && SwapResult(s, th.pc.job, th.pc.mutation, now).Err?
    ensures var e := SwapResult(s, th.pc.job, th.pc.mutation, now).error;
            var commitError := if e.Refused? && e.cause.CommitFailed? then Some(e.cause.failure) else None;
            var pc' := AfterRefusal(th.pc, e.VersionConflict?, commitError, retryable);
            Steady(pc', s.jobs[th.job]) && (!s.jobs[th.job].cancelRequested ==> !pc'.Aborted?)
  {
    if !s.jobs[th.job].cancelRequested { SwapGoesThrough(s, l, th, now); }
  }

  lemma SwapSteady(w: World, t: nat, now: int, owner: string, until: int, retryable: bool)
    requires ThreadFine(w, t) && WorkerAt(w, t) && w.threads[t].pc.Swapping? && JobsFit(w.ledger, w.store.jobs)
    requires ThreadOrderly(w.store.jobs, w.threads[t]) && ThreadSteady(w.store.jobs, w.threads[t]) && ThreadFits(w.ledger, w.store.jobs, w.threads[t])
    ensures var w' := WorkerSwap(w, t, now, owner, until, retryable);
            && ThreadSteady(w'.store.jobs, w'.threads[t])
            && (!w.store.jobs[w.threads[t].job].cancelRequested ==> !w'.threads[t].pc.Aborted?)
  {
    var th := w.threads[t];
    if SwapResult(w.store, th.pc.job, th.pc.mutation, now).Ok? { SwappedSteady(w.store, w.ledger, th, now, owner, until); }
    else { RefusedSteady(w.store, w.ledger, th, now, retryable); }
  }

  lemma SwapStaysSteady(w: World, t: nat, now: int, owner: string, until: int, retryable: bool)
    requires ThreadFine(w, t) && JobsFit(w.ledger, w.store.jobs) && ActorIn(w, Swap(t, now, owner, until, retryable))
    requires ActorOrderly(w, Swap(t, now, owner, until, retryable)) && ActorSteady(w, Swap(t, now, owner, until, retryable))
    ensures ActorStaysSteady(w, Swap(t, now, owner, until, retryable))
  {
    if WorkerAt(w, t) && w.threads[t].pc.Swapping? { SwapSteady(w, t, now, owner, until, retryable); }
  }

  lemma WorkerlessSteady(w: World, l: Label)
    requires Workerless(l) && MildElsewhere(w, l, Step(w, l).store.jobs) && ActorOrderly(w, l) && ActorSteady(w, l) && ThreadFine(w, l.t)
    ensures ActorStaysSteady(w, l)
  {
    WorkerlessKeeps(w, l);
    if l.t in w.threads { BystanderSteady(w.store, Step(w, l).store.jobs, w.threads[l.t]); }
  }

  lemma WorkerlessKeeps(w: World, l: Label)
    requires Workerless(l)
    ensures l.t in Step(w, l).threads && Step(w, l).threads[l.t].Worker? ==> l.t in w.threads && w.threads[l.t] == Step(w, l).threads[l.t]
  {
  }

  lemma ActorsStaySteady(w: World, l: Label)
    requires ActorIn(w, l) && ActorOrderly(w, l) && ActorSteady(w, l) && (Actor(l).Some? ==> ThreadFine(w, Actor(l).value))
    requires JobsFit(w.ledger, w.store.jobs) && MildElsewhere(w, l, Step(w, l).store.jobs)
    ensures ActorStaysSteady(w, l)
  {
    match l {
      case StoreStep(_) =>
      case OpenAccount(_, _) =>
      case Credit(_) =>
      case Swap(t, now, owner, until, retryable) => SwapStaysSteady(w, t, now, owner, until, retryable);
      case WorkerStep(t, a, owner, until) => WorkerStepSteady(w, t, a, owner, until);
      case CallCharge(t, g) => ChargeSteady(w, t, g);
      case StartWorker(t, job, now) => StartSteady(w, t, job, now);
      case _ => WorkerlessSteady(w, l);
    }
  }

  lemma BystanderStays(w: World, l: Label, t: nat)
    requires Coherent(w) && OrderlyInv(w) && SteadyInv(w) && MildElsewhere(w, l, Step(w, l).store.jobs)
    requires Actor(l) != Some(t) && t in Step(w, l).threads
    ensures ThreadSteady(Step(w, l).store.jobs, Step(w, l).threads[t])
  {
    OthersStay(w, l, t);
    BystanderSteady(w.store, Step(w, l).store.jobs, w.threads[t]);
  }

  lemma StepSteady(w: World, l: Label)
    requires ExclusiveInv(w) && LeaseExclusive(w, l) && SteadyInv(w)
    ensures SteadyInv(Step(w, l))
  {
    ActorKnown(w, l);
    JobsChangeMildly(w, l);
    ActorsStaySteady(w, l);
    forall t | t in Step(w, l).threads ensures ThreadSteady(Step(w, l).store.jobs, Step(w, l).threads[t]) {
      if Actor(l) != Some(t) { BystanderStays(w, l, t); }
    }
  }

  lemma {:induction false} RunSteady(labels: seq<Label>)
    requires ExclusiveRun(labels)
    ensures SteadyInv(Run(labels))
    decreases |labels|
  {
    if labels != [] {
      var shorter := labels[..|labels| - 1];
      ExclusivePrefix(labels);
      RunSteady(shorter);
      RunOrderly(shorter);
      StepSteady(Run(shorter), labels[|labels| - 1]);
    }
  }

  // ---------------------------------------------------------------- the claims

  /** In every exclusive run the swap of an uncancelled job's worker goes through, unless the commit it carries is refused. */
  lemma NoConflict(labels: seq<Label>, t: nat, now: int)
    requires ExclusiveRun(labels) && WorkerAt(Run(labels), t) && Run(labels).threads[t].pc.Swapping?
    requires !Run(labels).store.jobs[Run(labels).threads[t].job].cancelRequested
    ensures var w := Run(labels); var pc := w.threads[t].pc; GoesThrough(SwapResult(w.store, pc.job, pc.mutation, now), pc.mutation)
  {
    RunOrderly(labels);
    RunSteady(labels);
    var w := Run(labels);
    StoreIndexed(w.store);
    SwapGoesThrough(w.store, w.ledger, w.threads[t], now);
  }

  /** The answers on which the code gives the call up: recovery or lease failed, or none of the answers the point waits for. */
  predicate GivesUp(pc: Pc, a: Answer) {
    match pc
    case Loaded(_) => a.RecoveryFailed?
    case Routing(_) => !a.Registered?
    case Calling(_, call) => a.LeaseLost? || !(a.CallFailed? || (if call.CancelCall? then a.CancelAnswer? else a.Responded?))
    case ProviderError(_, _, _) => a.RecoveryFailed?
    case Quoting(_, _) => !a.PriceFailed? && !(a.Priced? && a.price.points >= 0)
    case Inspecting(job, result, _) =>
      !a.NotCommitted? && !((a.InspectFailed? || a.Committed?) && (job.assets != [] || result.assets != []))
    case Checking(_, _, quote) => !a.BindingFailed? && !a.Binding? && !(a.NoGateway? && quote.points > 0)
    case Rechecking(_, _, _) => !a.BindingFailed? && !a.Binding?
    case _ => false
  }

  lemma ProcessGivesUp(pc: Pc, a: Answer, owner: string, until: int)
    requires InProcess(pc) && AdvanceProcess(pc, a, owner, until).Aborted?
    ensures GivesUp(pc, a)
  {
  }

  lemma FinalizeGivesUp(pc: Pc, stored: Job, a: Answer)
    requires !InProcess(pc) && !pc.Aborted? && AdvanceFinalize(pc, stored, a).Aborted? && !pc.QuoteRereading? && !pc.ChargeRereading?
    ensures GivesUp(pc, a)
  {
  }

  lemma OnlyOwnSteps(w: World, l: Label, t: nat)
    requires t in w.threads && w.threads[t].Worker? && !w.threads[t].pc.Aborted?
    requires t in Step(w, l).threads && Step(w, l).threads[t].Worker? && Step(w, l).threads[t].pc.Aborted?
    ensures (l.WorkerStep? || l.Swap? || l.CallCharge?) && l.t == t
  {
  }

  lemma AnswerGivesUp(w: World, t: nat, a: Answer, owner: string, until: int)
    requires WorkerAt(w, t) && !w.threads[t].pc.Aborted? && Steady(w.threads[t].pc, w.store.jobs[w.threads[t].job])
    requires !w.store.jobs[w.threads[t].job].cancelRequested
    requires Advance(w.threads[t].pc, w.store.jobs[w.threads[t].job], a, owner, until).Aborted?
    ensures GivesUp(w.threads[t].pc, a)
  {
    var pc := w.threads[t].pc;
    if InProcess(pc) { ProcessGivesUp(pc, a, owner, until); } else { FinalizeGivesUp(pc, w.store.jobs[w.threads[t].job], a); }
  }

  lemma SwapNeverAborts(w: World, t: nat, now: int, owner: string, until: int, retryable: bool)
    requires ThreadFine(w, t) && WorkerAt(w, t) && JobsFit(w.ledger, w.store.jobs) && !w.threads[t].pc.Aborted?
    requires ThreadOrderly(w.store.jobs, w.threads[t]) && ThreadSteady(w.store.jobs, w.threads[t]) && ThreadFits(w.ledger, w.store.jobs, w.threads[t])
    requires !w.store.jobs[w.threads[t].job].cancelRequested
    ensures var w' := Step(w, Swap(t, now, owner, until, retryable)); t in w'.threads && w'.threads[t].Worker? && !w'.threads[t].pc.Aborted?
  {
    if w.threads[t].pc.Swapping? { SwapSteady(w, t, now, owner, until, retryable); }
  }

  lemma ChargeNeverAborts(w: World, t: nat, g: Gateway)
    requires WorkerAt(w, t) && !w.threads[t].pc.Aborted?
    ensures var w' := Step(w, CallCharge(t, g)); t in w'.threads && w'.threads[t].Worker? && !w'.threads[t].pc.Aborted?
  {
  }

  /** The worker's records are in order. */
  ghost predicate InGoodOrder(w: World, t: nat) {
    && ThreadFine(w, t) && WorkerAt(w, t) && JobsFit(w.ledger, w.store.jobs)
    && ThreadOrderly(w.store.jobs, w.threads[t]) && ThreadSteady(w.store.jobs, w.threads[t]) && ThreadFits(w.ledger, w.store.jobs, w.threads[t])
  }

  lemma AllInGoodOrder(w: World, t: nat)
    requires ExclusiveInv(w) && SteadyInv(w) && WorkerAt(w, t)
    ensures InGoodOrder(w, t)
  {
    StoreIndexed(w.store);
  }

  lemma StepAborts(w: World, l: Label, t: nat)
    requires InGoodOrder(w, t) && !w.threads[t].pc.Aborted? && !w.store.jobs[w.threads[t].job].cancelRequested
    requires t in Step(w, l).threads && Step(w, l).threads[t].Worker? && Step(w, l).threads[t].pc.Aborted?
    ensures l.WorkerStep? && l.t == t && GivesUp(w.threads[t].pc, l.answer)
  {
    OnlyOwnSteps(w, l, t);
    match l {
      case Swap(_, now, owner, until, retryable) => SwapNeverAborts(w, t, now, owner, until, retryable);
      case CallCharge(_, g) => ChargeNeverAborts(w, t, g);
      case WorkerStep(_, a, owner, until) => AnswerGivesUp(w, t, a, owner, until);
    }
  }

  /**
   In every exclusive run a call for an uncancelled job is given up only on an answer: a failed recovery, a lost lease, or
   something the program point does not wait for. Neither a compare-and-swap nor a billing call ever aborts it.
   */
  lemma AbortsOnlyOnAnswer(labels: seq<Label>, l: Label, t: nat)
    requires ExclusiveRun(labels) && WorkerAt(Run(labels), t) && !Run(labels).threads[t].pc.Aborted?
    requires !Run(labels).store.jobs[Run(labels).threads[t].job].cancelRequested
    requires t in Step(Run(labels), l).threads && Step(Run(labels), l).threads[t].Worker? && Step(Run(labels), l).threads[t].pc.Aborted?
    ensures l.WorkerStep? && l.t == t && GivesUp(Run(labels).threads[t].pc, l.answer)
  {
    RunOrderly(labels);
    RunSteady(labels);
    AllInGoodOrder(Run(labels), t);
    StepAborts(Run(labels), l, t);
  }
}
