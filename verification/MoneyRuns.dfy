/**
 At-most-once money, in every run: with crashes anywhere, retries, overlapping workers, a billing gateway that
 fails before or after the fact, and any cost calculator, the ledger holds per job at most one charge, of exactly
 the frozen price, and at most one refund, of exactly the charge; and the ledger as a whole conserves points.
 */
module MoneyRuns {
  import opened Basics
  import opened GenerationModels
  import opened JobMutations
  import opened WorkflowStore
  import opened BatchTransactions
  import opened StoreInvariants
  import opened Workers
  import opened World
  import opened Snapshots
  import opened StoredChanges
  import opened MoneyRules
  import Billing
  import LC = LedgerConservation

  ghost predicate JobsFit(l: Billing.Ledger, jobs: Jobs) {
    forall id :: id in jobs ==> Bounded(jobs[id]) && JobMoney(l, jobs[id])
  }

  ghost predicate ThreadFits(l: Billing.Ledger, jobs: Jobs, th: Thread) {
    match th
    case Worker(job, _, pc) => job in jobs && PcFits(pc, jobs[job]) && PcMoney(l, job, pc)
    case Compensator(job, cpc) => job in jobs && CompensatorFits(l, job, cpc)
    case Relay(_, _) => true
  }

  ghost predicate ThreadsFit(w: World) {
    forall t :: t in w.threads ==> ThreadFits(w.ledger, w.store.jobs, w.threads[t])
  }

  ghost predicate MoneyInv(w: World) {
    JobsFit(w.ledger, w.store.jobs) && LedgerFits(w.ledger, w.store.jobs) && ThreadsFit(w)
  }

  // ---------------------------------------------------------------- stored jobs

  lemma UnstartedFits(l: Billing.Ledger, j: Job)
    requires Unstarted(j)
    ensures Bounded(j) && JobMoney(l, j)
  {
  }

  lemma ChangeKeepsMoney(w: World, l: Label, a: Job, b: Job)
    requires JobChanged(w, l, a, b) && Bounded(a) && JobMoney(w.ledger, a)
    requires Actor(l).Some? && Actor(l).value in w.threads ==> ThreadFits(w.ledger, w.store.jobs, w.threads[Actor(l).value])
    ensures Bounded(b) && JobMoney(w.ledger, b) && Develops(a, b)
  {
    if Swapped(w, l, a, b) {
      if l.Swap? {
        var m := w.threads[l.t].pc.mutation;
        if m.ByWorker? { WorkerKeepsMoney(w.ledger, a, m.w, l.now, b); } else { FinalizerKeepsMoney(w.ledger, a, m.f, l.now, b); }
      } else {
        CompensationKeepsMoney(w.ledger, a, w.threads[l.t].cpc.mutation, l.now, b);
      }
    } else if CancelledBy(l, a, b) {
      CancelKeepsMoney(w.ledger, a, l.op.now);
    }
  }

  ghost predicate AllDevelop(jobs: Jobs, jobs': Jobs) {
    forall id :: id in jobs ==> id in jobs' && Develops(jobs[id], jobs'[id])
  }

  ghost predicate ActorIn(w: World, l: Label) {
    Actor(l).Some? && Actor(l).value in w.threads ==> ThreadFits(w.ledger, w.store.jobs, w.threads[Actor(l).value])
  }

  lemma JobsStayFit(w: World, l: Label)
    requires Coherent(w) && JobsFit(w.ledger, w.store.jobs) && ActorIn(w, l)
    ensures JobsFit(w.ledger, Step(w, l).store.jobs) && AllDevelop(w.store.jobs, Step(w, l).store.jobs)
  {
    var jobs, jobs' := w.store.jobs, Step(w, l).store.jobs;
    StepCoherent(w, l);
    forall id | id in jobs' ensures Bounded(jobs'[id]) && JobMoney(w.ledger, jobs'[id]) && (id in jobs ==> Develops(jobs[id], jobs'[id])) {
      StoredChange(w, l, id);
      if id in jobs { ChangeKeepsMoney(w, l, jobs[id], jobs'[id]); } else { UnstartedFits(w.ledger, jobs'[id]); }
    }
  }

  // ---------------------------------------------------------------- the ledger

  /** The ledger after a step. */
  ghost function LedgerAfter(w: World, l: Label): Billing.Ledger {
    match l
    case CallCharge(t, g) =>
      if WorkerAt(w, t) && w.threads[t].pc.Paying?
      then ThroughGateway(w.ledger, ChargeRequest(w.threads[t].pc.job, w.threads[t].pc.quote), Billing.Charge, g).0 else w.ledger
    case CallRefund(t, g) =>
      if t in w.threads && w.threads[t].Compensator? && w.threads[t].cpc.Refunding? && w.threads[t].cpc.job.money.txn.Some?
      then ThroughGateway(w.ledger, RefundRequest(w.threads[t].cpc.job), Billing.Refund, g).0 else w.ledger
    case OpenAccount(user, initial) => LC.Act(w.ledger, LC.Open(user, initial))
    case Credit(request) => if ForeignCredit(w.ledger, request) then Billing.Mutate(w.ledger, request, Billing.Credit).0 else w.ledger
    case _ => w.ledger
  }

  lemma LedgerAfterStep(w: World, l: Label)
    ensures Step(w, l).ledger == LedgerAfter(w, l)
  {
  }

  lemma PayingMayCharge(w: World, t: nat)
    requires ThreadFine(w, t) && WorkerAt(w, t) && w.threads[t].pc.Paying? && ThreadFits(w.ledger, w.store.jobs, w.threads[t])
    ensures w.threads[t].pc.job.spec.id == w.threads[t].job && MayCharge(w.store.jobs, w.threads[t].pc.job, w.threads[t].pc.quote)
  {
  }

  lemma LedgerIgnoresAccounts(l: Billing.Ledger, l': Billing.Ledger, jobs: Jobs)
    requires LedgerFits(l, jobs) && l'.txns == l.txns && l'.byKey == l.byKey
    ensures InOrder(l, l', jobs)
  {
    forall t | t in l'.txns ensures TxnFits(l', jobs, t) { assert TxnFits(l, jobs, t); }
  }

  lemma ChargeInOrder(w: World, t: nat, g: Gateway)
    requires LedgerFits(w.ledger, w.store.jobs) && ActorIn(w, CallCharge(t, g)) && ThreadFine(w, t)
    ensures InOrder(w.ledger, LedgerAfter(w, CallCharge(t, g)), w.store.jobs)
  {
    if WorkerAt(w, t) && w.threads[t].pc.Paying? {
      PayingMayCharge(w, t);
      ChargeKeepsLedger(w.ledger, w.store.jobs, w.threads[t].pc.job, w.threads[t].pc.quote);
    }
  }

  lemma RefundInOrder(w: World, t: nat, g: Gateway)
    requires LedgerFits(w.ledger, w.store.jobs) && ActorIn(w, CallRefund(t, g))
    ensures InOrder(w.ledger, LedgerAfter(w, CallRefund(t, g)), w.store.jobs)
  {
    if t in w.threads && w.threads[t].Compensator? && w.threads[t].cpc.Refunding? && w.threads[t].cpc.job.money.txn.Some? {
      RefundKeepsLedger(w.ledger, w.store.jobs, w.threads[t].cpc.job);
    }
  }

  lemma CreditInOrder(w: World, r: Billing.Request)
    requires LedgerFits(w.ledger, w.store.jobs)
    ensures InOrder(w.ledger, LedgerAfter(w, Credit(r)), w.store.jobs)
  {
    if ForeignCredit(w.ledger, r) { CreditKeepsLedger(w.ledger, w.store.jobs, r); }
  }

  lemma OpeningInOrder(w: World, user: string, initial: int)
    requires LedgerFits(w.ledger, w.store.jobs)
    ensures InOrder(w.ledger, LedgerAfter(w, OpenAccount(user, initial)), w.store.jobs)
  {
    LedgerIgnoresAccounts(w.ledger, LedgerAfter(w, OpenAccount(user, initial)), w.store.jobs);
  }

  lemma LedgerStaysInOrder(w: World, l: Label)
    requires LedgerFits(w.ledger, w.store.jobs) && ActorIn(w, l)
    requires Actor(l).Some? ==> ThreadFine(w, Actor(l).value)
    ensures InOrder(w.ledger, LedgerAfter(w, l), w.store.jobs)
  {
    match l {
      case CallCharge(t, g) => ChargeInOrder(w, t, g);
      case CallRefund(t, g) => RefundInOrder(w, t, g);
      case OpenAccount(user, initial) => OpeningInOrder(w, user, initial);
      case Credit(request) => CreditInOrder(w, request);
      case _ => LedgerIgnoresAccounts(w.ledger, w.ledger, w.store.jobs);
    }
  }

  // ---------------------------------------------------------------- threads

  lemma ThreadStaysFit(l: Billing.Ledger, l': Billing.Ledger, jobs: Jobs, jobs': Jobs, th: Thread)
    requires ThreadFits(l, jobs, th) && Extends(l, l') && AllDevelop(jobs, jobs')
    ensures ThreadFits(l', jobs', th)
  {
    if th.Worker? {
      PcStaysFit(th.pc, jobs[th.job], jobs'[th.job]);
      PcMoneyPersists(l, l', th.job, th.pc);
    }
  }

  /** What a step must show of the thread it moved. */
  ghost predicate ActorOut(w: World, l: Label) {
    Actor(l).Some? && Actor(l).value in Step(w, l).threads ==>
      ThreadFits(Step(w, l).ledger, Step(w, l).store.jobs, Step(w, l).threads[Actor(l).value])
  }

  lemma SwapStaysFit(w: World, t: nat, now: int, owner: string, until: int, retryable: bool)
    requires ThreadFine(w, t) && ActorIn(w, Swap(t, now, owner, until, retryable))
    requires JobsFit(w.ledger, Step(w, Swap(t, now, owner, until, retryable)).store.jobs)
    requires AllDevelop(w.store.jobs, Step(w, Swap(t, now, owner, until, retryable)).store.jobs)
    ensures ActorOut(w, Swap(t, now, owner, until, retryable))
  {
    if WorkerAt(w, t) && w.threads[t].pc.Swapping? {
      var th, stored := w.threads[t], w.store.jobs[w.threads[t].job];
      var r := SwapResult(w.store, th.pc.job, th.pc.mutation, now);
      if r.Ok? {
        SwapFound(w.store, th.pc.job, th.pc.mutation, now, th.job);
        AfterSwapFits(th.pc, stored, now, r.value.1, owner, until);
        AfterSwapMoney(w.ledger, th.job, th.pc, r.value.1, owner, until);
      } else {
        var commitError := if r.error.Refused? && r.error.cause.CommitFailed? then Some(r.error.cause.failure) else None;
        AfterRefusalFits(w.ledger, th.pc, stored, r.error.VersionConflict?, commitError, retryable);
      }
    } else if t in w.threads {
      ThreadStaysFit(w.ledger, w.ledger, w.store.jobs, w.store.jobs, w.threads[t]);
    }
  }

  lemma WorkerStepStaysFit(w: World, t: nat, a: Answer, owner: string, until: int)
    requires ThreadFine(w, t) && ActorIn(w, WorkerStep(t, a, owner, until)) && JobsFit(w.ledger, w.store.jobs)
    ensures ActorOut(w, WorkerStep(t, a, owner, until))
  {
    if WorkerAt(w, t) {
      var th, stored := w.threads[t], w.store.jobs[w.threads[t].job];
      AdvanceFits(th.pc, stored, a, owner, until);
      AdvanceMoney(w.ledger, th.job, th.pc, stored, a, owner, until);
    }
  }

  lemma ChargeStaysFit(w: World, t: nat, g: Gateway)
    requires ThreadFine(w, t) && ActorIn(w, CallCharge(t, g)) && LedgerFits(w.ledger, w.store.jobs)
    ensures ActorOut(w, CallCharge(t, g))
  {
    if WorkerAt(w, t) && w.threads[t].pc.Paying? {
      var th := w.threads[t];
      PayingMayCharge(w, t);
      ChargeKeepsLedger(w.ledger, w.store.jobs, th.pc.job, th.pc.quote);
      var (l', result) := ThroughGateway(w.ledger, ChargeRequest(th.pc.job, th.pc.quote), Billing.Charge, g);
      PcMoneyPersists(w.ledger, l', th.job, th.pc);
      AfterChargeFits(l', th.pc, w.store.jobs[th.job], result);
    }
  }

  lemma RefundingStaysFit(l: Billing.Ledger, jobs: Jobs, th: Thread, g: Gateway)
    requires LedgerFits(l, jobs) && ThreadFits(l, jobs, th)
    requires th.Compensator? && th.cpc.Refunding? && th.cpc.job.money.txn.Some?
    ensures var (l', result) := ThroughGateway(l, RefundRequest(th.cpc.job), Billing.Refund, g);
            CompensatorFits(l', th.job, AfterRefund(th.cpc.job, result))
  {
    RefundKeepsLedger(l, jobs, th.cpc.job);
    var (l', result) := ThroughGateway(l, RefundRequest(th.cpc.job), Billing.Refund, g);
    JobMoneyPersists(l, l', th.cpc.job);
    AfterRefundFits(l', th.job, th.cpc.job, result);
  }

  predicate RefundReady(w: World, t: nat) {
    t in w.threads && w.threads[t].Compensator? && w.threads[t].cpc.Refunding? && w.threads[t].cpc.job.money.txn.Some?
  }

  lemma RefundStepIs(w: World, t: nat, g: Gateway)
    ensures Step(w, CallRefund(t, g)) == if RefundReady(w, t) then Refund(w, t, g) else w
  {
  }

  lemma RefundStaysFit(w: World, t: nat, g: Gateway)
    requires ThreadFine(w, t) && ActorIn(w, CallRefund(t, g)) && LedgerFits(w.ledger, w.store.jobs)
    ensures ActorOut(w, CallRefund(t, g))
  {
    RefundStepIs(w, t, g);
    if RefundReady(w, t) {
      RefundingStaysFit(w.ledger, w.store.jobs, w.threads[t], g);
    }
  }

  lemma ClaimStaysFit(l: Billing.Ledger, s: Store, th: Thread, now: int)
    requires Indexed(s) && th.Compensator? && th.cpc.CompSwapping? && ThreadCoherent(s, th) && ThreadFits(l, s.jobs, th)
    requires th.cpc.mutation.ClaimCompensation? && SwapResult(s, th.cpc.job, ByCompensation(th.cpc.mutation), now).Ok?
    requires JobsFit(l, SwapResult(s, th.cpc.job, ByCompensation(th.cpc.mutation), now).value.0.jobs)
    ensures var (s', b) := SwapResult(s, th.cpc.job, ByCompensation(th.cpc.mutation), now).value;
            ThreadFits(l, s'.jobs, th.(cpc := Refunding(b)))
  {
    var (s', b) := SwapResult(s, th.cpc.job, ByCompensation(th.cpc.mutation), now).value;
    SwapFound(s, th.cpc.job, ByCompensation(th.cpc.mutation), now, th.job);
    assert StepsTo(s.jobs[th.job], ByCompensation(th.cpc.mutation), now, b);
    assert Bounded(s'.jobs[th.job]) && JobMoney(l, s'.jobs[th.job]);
    ClaimedFits(l, th.job, s.jobs[th.job], th.cpc.mutation.owner, th.cpc.mutation.until, now, b);
  }

  lemma CompensatorSwapFits(w: World, t: nat, now: int)
    requires ThreadFine(w, t) && t in w.threads && w.threads[t].Compensator? && w.threads[t].cpc.CompSwapping?
    requires ThreadFits(w.ledger, w.store.jobs, w.threads[t]) && JobsFit(w.ledger, CompensatorSwap(w, t, now).store.jobs)
    ensures var w' := CompensatorSwap(w, t, now); ThreadFits(w.ledger, w'.store.jobs, w'.threads[t])
  {
    var th := w.threads[t];
    if SwapResult(w.store, th.cpc.job, ByCompensation(th.cpc.mutation), now).Ok? {
      if th.cpc.mutation.ClaimCompensation? { ClaimStaysFit(w.ledger, w.store, th, now); }
      else { SwapFound(w.store, th.cpc.job, ByCompensation(th.cpc.mutation), now, th.job); }
    }
  }

  lemma CompSwapIs(w: World, t: nat, now: int)
    ensures Step(w, CompSwap(t, now)) ==
      if t in w.threads && w.threads[t].Compensator? && w.threads[t].cpc.CompSwapping? then CompensatorSwap(w, t, now) else w
  {
  }

  lemma CompSwapStaysFit(w: World, t: nat, now: int)
    requires ThreadFine(w, t) && ActorIn(w, CompSwap(t, now)) && JobsFit(w.ledger, Step(w, CompSwap(t, now)).store.jobs)
    ensures ActorOut(w, CompSwap(t, now))
  {
    CompSwapIs(w, t, now);
    if t in w.threads && w.threads[t].Compensator? && w.threads[t].cpc.CompSwapping? { CompensatorSwapFits(w, t, now); }
  }

  lemma StartWorkerFits(w: World, t: nat, job: Id, now: int)
    requires ActorIn(w, StartWorker(t, job, now)) && JobsFit(w.ledger, w.store.jobs)
    ensures ActorOut(w, StartWorker(t, job, now))
  {
  }

  lemma StartCompensationFits(w: World, t: nat, job: Id, now: int, owner: string, until: int)
    requires ThreadFine(w, t) && ActorIn(w, StartCompensation(t, job, now, owner, until)) && JobsFit(w.ledger, w.store.jobs)
    ensures ActorOut(w, StartCompensation(t, job, now, owner, until))
  {
  }

  lemma StartManualFits(w: World, t: nat, job: Id, points: int, refund: Option<Billing.TxnId>)
    requires ThreadFine(w, t) && ActorIn(w, StartManual(t, job, points, refund)) && JobsFit(w.ledger, w.store.jobs)
    ensures ActorOut(w, StartManual(t, job, points, refund))
  {
  }

  lemma TakeFits(w: World, t: nat, key: OutboxKey)
    requires ActorIn(w, Take(t, key))
    ensures ActorOut(w, Take(t, key))
  {
  }

  lemma RelayStaysFit(w: World, l: Label)
    requires (l.Publish? || l.Settle? || l.Leave?) && ActorIn(w, l)
    requires AllDevelop(w.store.jobs, Step(w, l).store.jobs)
    ensures ActorOut(w, l)
  {
    if l.t in w.threads { ThreadStaysFit(w.ledger, w.ledger, w.store.jobs, Step(w, l).store.jobs, w.threads[l.t]); }
  }

  lemma AllStayFit(w: World, l: Label)
    requires ActorIn(w, l) && (Actor(l).Some? ==> ThreadFine(w, Actor(l).value))
    requires JobsFit(w.ledger, w.store.jobs) && LedgerFits(w.ledger, w.store.jobs)
    requires JobsFit(w.ledger, Step(w, l).store.jobs) && AllDevelop(w.store.jobs, Step(w, l).store.jobs)
    ensures ActorOut(w, l)
  {
    match l {
      case StoreStep(_) =>
      case OpenAccount(_, _) =>
      case Credit(_) =>
      case Swap(t, now, owner, until, retryable) => SwapStaysFit(w, t, now, owner, until, retryable);
      case CompSwap(t, now) => CompSwapStaysFit(w, t, now);
      case CallCharge(t, g) => ChargeStaysFit(w, t, g);
      case CallRefund(t, g) => RefundStaysFit(w, t, g);
      case WorkerStep(t, a, owner, until) => WorkerStepStaysFit(w, t, a, owner, until);
      case Publish(_, _, _) => RelayStaysFit(w, l);
      case Settle(_, _) => RelayStaysFit(w, l);
      case Leave(_) => RelayStaysFit(w, l);
      case StartWorker(t, job, now) => StartWorkerFits(w, t, job, now);
      case StartCompensation(t, job, now, owner, until) => StartCompensationFits(w, t, job, now, owner, until);
      case StartManual(t, job, points, refund) => StartManualFits(w, t, job, points, refund);
      case Take(t, key) => TakeFits(w, t, key);
    }
  }

  // ---------------------------------------------------------------- runs

  lemma JobsOutliveLedger(l: Billing.Ledger, l': Billing.Ledger, jobs: Jobs)
    requires JobsFit(l, jobs) && Extends(l, l')
    ensures JobsFit(l', jobs)
  {
    forall id | id in jobs ensures Bounded(jobs[id]) && JobMoney(l', jobs[id]) { JobMoneyPersists(l, l', jobs[id]); }
  }

  lemma ActorKnown(w: World, l: Label)
    requires Coherent(w) && ThreadsFit(w)
    ensures ActorIn(w, l) && (Actor(l).Some? ==> ThreadFine(w, Actor(l).value))
  {
    StoreIndexed(w.store);
  }

  lemma StepKeepsMoney(w: World, l: Label)
    requires Coherent(w) && MoneyInv(w)
    ensures MoneyInv(Step(w, l))
  {
    var w' := Step(w, l);
    ActorKnown(w, l);
    JobsStayFit(w, l);
    LedgerAfterStep(w, l);
    LedgerStaysInOrder(w, l);
    AllStayFit(w, l);
    JobsOutliveLedger(w.ledger, w'.ledger, w'.store.jobs);
    LedgerStaysFit(w'.ledger, w.store.jobs, w'.store.jobs);
    forall t | t in w'.threads ensures ThreadFits(w'.ledger, w'.store.jobs, w'.threads[t]) {
      if Actor(l) != Some(t) {
        OthersStay(w, l, t);
        ThreadStaysFit(w.ledger, w'.ledger, w.store.jobs, w'.store.jobs, w.threads[t]);
      }
    }
  }

  lemma {:induction false} RunKeepsMoney(labels: seq<Label>)
    ensures Coherent(Run(labels)) && MoneyInv(Run(labels))
    decreases |labels|
  {
    RunCoherent(labels);
    if labels != [] {
      RunKeepsMoney(labels[..|labels| - 1]);
      StepKeepsMoney(Run(labels[..|labels| - 1]), labels[|labels| - 1]);
    }
  }

  /** The balances accounts were opened with in a run. */
  ghost function Openings(labels: seq<Label>): map<Billing.UserId, int> {
    if labels == [] then map[]
    else
      var before, l := Openings(labels[..|labels| - 1]), labels[|labels| - 1];
      if l.OpenAccount? then LC.Opened(before, l.user, l.initial) else before
  }

  lemma ThroughGatewayConserves(l: Billing.Ledger, opening: map<Billing.UserId, int>, r: Billing.Request, kind: Billing.Kind, g: Gateway)
    requires LC.Conserved(l, opening) && (Billing.Books(l, r, kind) ==> r.txn !in l.txns)
    ensures LC.Conserved(ThroughGateway(l, r, kind, g).0, opening)
  {
    LC.MutateConserves(l, opening, r, kind);
  }

  lemma ChargeConserves(w: World, t: nat, g: Gateway, opening: map<Billing.UserId, int>)
    requires LedgerFits(w.ledger, w.store.jobs) && ActorIn(w, CallCharge(t, g)) && ThreadFine(w, t)
    requires WorkerAt(w, t) && w.threads[t].pc.Paying? && LC.Conserved(w.ledger, opening)
    ensures LC.Conserved(ThroughGateway(w.ledger, ChargeRequest(w.threads[t].pc.job, w.threads[t].pc.quote), Billing.Charge, g).0, opening)
  {
    var pc := w.threads[t].pc;
    assert Billing.Books(w.ledger, ChargeRequest(pc.job, pc.quote), Billing.Charge) ==> Billing.ChargeTxn(pc.job.spec.id) !in w.ledger.txns by {
      PayingMayCharge(w, t);
      if ChargeKeyOf(pc.job) !in w.ledger.byKey { ChargeIdFree(w.ledger, w.store.jobs, pc.job.spec.id); }
    }
    ThroughGatewayConserves(w.ledger, opening, ChargeRequest(pc.job, pc.quote), Billing.Charge, g);
  }

  lemma RefundIsFresh(l: Billing.Ledger, jobs: Jobs, job: Job)
    requires LedgerFits(l, jobs) && job.money.txn.Some? && JobMoney(l, job)
    ensures Billing.Books(l, RefundRequest(job), Billing.Refund) ==> Billing.RefundTxn(job.spec.id) !in l.txns
  {
    if Billing.RefundKey(job.spec.id, Billing.ChargeTxn(job.spec.id)) !in l.byKey { RefundIdFree(l, jobs, job.spec.id); }
  }

  lemma RefundConserves(w: World, job: Job, g: Gateway, opening: map<Billing.UserId, int>)
    requires LedgerFits(w.ledger, w.store.jobs) && job.money.txn.Some? && JobMoney(w.ledger, job) && LC.Conserved(w.ledger, opening)
    ensures LC.Conserved(ThroughGateway(w.ledger, RefundRequest(job), Billing.Refund, g).0, opening)
  {
    RefundIsFresh(w.ledger, w.store.jobs, job);
    ThroughGatewayConserves(w.ledger, opening, RefundRequest(job), Billing.Refund, g);
  }

  lemma LedgerConserves(w: World, l: Label, opening: map<Billing.UserId, int>)
    requires LedgerFits(w.ledger, w.store.jobs) && ActorIn(w, l) && (Actor(l).Some? ==> ThreadFine(w, Actor(l).value))
    requires LC.Conserved(w.ledger, opening)
    ensures LC.Conserved(LedgerAfter(w, l), if l.OpenAccount? then LC.Opened(opening, l.user, l.initial) else opening)
  {
    match l {
      case CallCharge(t, g) => if WorkerAt(w, t) && w.threads[t].pc.Paying? { ChargeConserves(w, t, g, opening); }
      case CallRefund(t, g) =>
        if t in w.threads && w.threads[t].Compensator? && w.threads[t].cpc.Refunding? && w.threads[t].cpc.job.money.txn.Some? {
          RefundConserves(w, w.threads[t].cpc.job, g, opening);
        }
      case OpenAccount(user, initial) => LC.OpenConserves(w.ledger, opening, user, initial);
      case Credit(request) => if ForeignCredit(w.ledger, request) { LC.MutateConserves(w.ledger, opening, request, Billing.Credit); }
      case _ =>
    }
  }

  /** The whole system conserves points: the freshness the ledger relies on is what the workflow provides. */
  lemma {:induction false} RunConserves(labels: seq<Label>)
    ensures LC.Conserved(Run(labels).ledger, Openings(labels))
    decreases |labels|
  {
    if labels != [] {
      var shorter, l := labels[..|labels| - 1], labels[|labels| - 1];
      RunConserves(shorter);
      RunKeepsMoney(shorter);
      ActorKnown(Run(shorter), l);
      LedgerAfterStep(Run(shorter), l);
      LedgerConserves(Run(shorter), l, Openings(shorter));
    }
  }

  /** Any two charges booked for one job are the same booking, and it took exactly the frozen price. */
  lemma AtMostOneCharge(labels: seq<Label>, t: Billing.TxnId, u: Billing.TxnId)
    requires var l := Run(labels).ledger; t in l.txns && l.txns[t].kind == Billing.Charge
    ensures var w := Run(labels); var x := w.ledger.txns[t];
            && x.job in w.store.jobs && w.store.jobs[x.job].quote == Some(Quote(x.points, x.breakdown))
            && (u in w.ledger.txns && w.ledger.txns[u].kind == Billing.Charge && w.ledger.txns[u].job == x.job ==> u == t)
  {
    RunKeepsMoney(labels);
    var w := Run(labels);
    assert TxnFits(w.ledger, w.store.jobs, t);
    if u in w.ledger.txns { assert TxnFits(w.ledger, w.store.jobs, u); }
  }

  /** Every refund names a charge and gives back all of it; no charge is refunded twice. */
  lemma AtMostOneRefund(labels: seq<Label>, t: Billing.TxnId, u: Billing.TxnId)
    requires var l := Run(labels).ledger; t in l.txns && l.txns[t].kind == Billing.Refund
    ensures var l := Run(labels).ledger; var x := l.txns[t];
            && x.reference.Some? && x.reference.value in l.txns && l.txns[x.reference.value].kind == Billing.Charge
            && x.points == l.txns[x.reference.value].points
            && (u in l.txns && l.txns[u].kind == Billing.Refund && l.txns[u].reference == x.reference ==> u == t)
  {
    RunKeepsMoney(labels);
    var w := Run(labels);
    assert TxnFits(w.ledger, w.store.jobs, t);
    if u in w.ledger.txns { assert TxnFits(w.ledger, w.store.jobs, u); }
  }

  /** What a job says it was charged is what the ledger booked for it; its compensation never exceeds that. */
  lemma RecordedChargeIsBooked(labels: seq<Label>, id: Id)
    requires id in Run(labels).store.jobs && Run(labels).store.jobs[id].money.txn.Some?
    ensures var w := Run(labels); var m := w.store.jobs[id].money;
            && m.txn.value in w.ledger.txns && w.ledger.txns[m.txn.value].kind == Billing.Charge
            && w.ledger.txns[m.txn.value].job == id
            && w.ledger.txns[m.txn.value].points == m.charged && w.ledger.txns[m.txn.value].breakdown == m.breakdown
            && w.store.jobs[id].quote == Some(Quote(m.charged, m.breakdown))
            && 0 <= m.compensated <= m.charged
  {
    RunKeepsMoney(labels);
    var w := Run(labels);
    StoreIndexed(w.store);
    assert Bounded(w.store.jobs[id]) && JobMoney(w.ledger, w.store.jobs[id]);
    assert TxnFits(w.ledger, w.store.jobs, Billing.ChargeTxn(id));
  }

  /** However many workers poll, a job is never polled more often than its bound. */
  lemma PollsBounded(labels: seq<Label>, id: Id)
    requires id in Run(labels).store.jobs
    ensures 0 <= Run(labels).store.jobs[id].sched.polls <= Run(labels).store.jobs[id].spec.maxPolls
  {
    RunKeepsMoney(labels);
    assert Bounded(Run(labels).store.jobs[id]);
  }
}
