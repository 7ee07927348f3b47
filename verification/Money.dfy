/** What the ledger, the stored job and the program points of a worker say about one job's money. */
module MoneyRules {
  import opened Basics
  import opened GenerationModels
  import opened JobMutations
  import opened WorkflowStore
  import opened StoreInvariants
  import opened Workers
  import opened Snapshots
  import opened StoredChanges
  import Billing
  import LC = LedgerConservation

  type Jobs = map<Id, Job>

  // ---------------------------------------------------------------- one job

  /** Counters within their bounds; only finished jobs are compensated. */
  ghost predicate Bounded(j: Job) {
    && j.spec.maxAttempts >= 1 && j.spec.maxPolls >= 1
    && 0 <= j.sched.polls <= j.spec.maxPolls && j.sched.attempt >= 0 && j.sched.retryCount >= 0
    && (j.quote.Some? ==> j.quote.value.points >= 0)
    && (!j.comp.NotRequired? ==> Terminal(j))
  }

  /** The ledger holds this charge of the job. */
  ghost predicate ChargeRecorded(l: Billing.Ledger, id: Id, points: int, breakdown: Billing.Breakdown) {
    && Billing.ChargeTxn(id) in l.txns && l.txns[Billing.ChargeTxn(id)].kind == Billing.Charge
    && l.txns[Billing.ChargeTxn(id)].points == points > 0 && l.txns[Billing.ChargeTxn(id)].breakdown == breakdown
  }

  /** What the job records about its money is what the ledger booked, and no more comes back than was taken. */
  ghost predicate JobMoney(l: Billing.Ledger, j: Job) {
    && (j.money.txn.None? ==> j.money.charged == 0)
    && (j.money.txn.Some? ==>
          j.money.txn == Some(Billing.ChargeTxn(j.spec.id)) && ChargeRecorded(l, j.spec.id, j.money.charged, j.money.breakdown))
    && 0 <= j.money.compensated <= j.money.charged
    && (j.money.refund.None? ==> j.money.compensated == 0)
  }

  predicate InCompensation(j: Job) { j.comp.CompPending? || j.comp.CompRunning? || j.comp.CompRetryWait? }

  /** What the code checked before it queued a mutation. */
  ghost predicate Guarded(j: Job, m: Mutation) {
    match m
    case ByWorker(w) => w.Poll? ==> j.sched.polls < j.spec.maxPolls
    case ByFinalizer(f) => (f.BeginCharge? ==> f.key == ChargeKeyOf(j)) && (f.FreezeQuote? ==> f.quote.points >= 0)
    case ByCompensation(c) =>
      && InCompensation(j)
      && (c.ClaimCompensation? ==> j.money.txn.Some?)
      && (c.CompleteCompensation? ==> 0 <= c.points <= j.money.charged)
      && (c.FinalizeManually? ==> 0 <= c.points <= j.money.charged && (c.points > 0 ==> c.manualRefund.Some?))
  }

  /** A charge is only recorded on a job after the ledger has it. */
  ghost predicate ChargeGuarded(l: Billing.Ledger, id: Id, f: FinalMutation) {
    f.RecordCharge? ==> f.txn == Billing.ChargeTxn(id) && ChargeRecorded(l, id, f.points, f.breakdown)
  }

  /** What a change of a stored job never touches. */
  ghost predicate Develops(a: Job, b: Job) {
    b.spec == a.spec && ChargeKeyOf(b) == ChargeKeyOf(a) && (a.quote.Some? ==> b.quote == a.quote)
  }

  lemma WorkerKeepsMoney(l: Billing.Ledger, a: Job, m: WorkerMutation, now: int, b: Job)
    requires StepsTo(a, ByWorker(m), now, b) && Bounded(a) && JobMoney(l, a) && Guarded(a, ByWorker(m))
    ensures Bounded(b) && JobMoney(l, b) && Develops(a, b)
  {
  }

  lemma FinalizerKeepsMoney(l: Billing.Ledger, a: Job, m: FinalMutation, now: int, b: Job)
    requires StepsTo(a, ByFinalizer(m), now, b) && Bounded(a) && JobMoney(l, a) && Guarded(a, ByFinalizer(m))
    requires ChargeGuarded(l, a.spec.id, m)
    ensures Bounded(b) && JobMoney(l, b) && Develops(a, b)
  {
  }

  lemma CompensationKeepsMoney(l: Billing.Ledger, a: Job, m: CompMutation, now: int, b: Job)
    requires StepsTo(a, ByCompensation(m), now, b) && Bounded(a) && JobMoney(l, a) && Guarded(a, ByCompensation(m))
    ensures Bounded(b) && JobMoney(l, b) && Develops(a, b)
  {
  }

  lemma CancelKeepsMoney(l: Billing.Ledger, a: Job, now: int)
    requires Bounded(a) && JobMoney(l, a)
    ensures Bounded(CancelledNow(a, now)) && JobMoney(l, CancelledNow(a, now)) && Develops(a, CancelledNow(a, now))
  {
  }

  // ---------------------------------------------------------------- program points

  /** The price a program point works with. */
  function QuoteAt(pc: Pc): Option<Quote> {
    match pc
    case Swapping(_, _, next) =>
      (match next
       case ThenCheck(_, quote) => Some(quote)
       case ThenPay(_, quote) => Some(quote)
       case ThenRecheck(_, quote, _) => Some(quote)
       case _ => None)
    case Reloading(_, quote) => Some(quote)
    case Inspecting(_, _, quote) => Some(quote)
    case Checking(_, _, quote) => Some(quote)
    case Paying(_, _, quote) => Some(quote)
    case ChargeRereading(_, _, quote, _) => Some(quote)
    case Rechecking(_, _, quote) => Some(quote)
    case _ => None
  }

  ghost predicate HeldFits(held: Option<Job>, stored: Job) {
    held.Some? ==> Bounded(held.value) && ChargeKeyOf(held.value) == ChargeKeyOf(stored)
  }

  ghost predicate QuoteFits(pc: Pc, stored: Job) { QuoteAt(pc).Some? ==> stored.quote == QuoteAt(pc) }

  ghost predicate PlanFits(pc: Pc) {
    && (pc.Swapping? ==> !pc.mutation.ByCompensation? && Guarded(pc.job, pc.mutation))
    && (pc.QuoteRereading? ==> pc.price.points >= 0)
  }

  /** Counters, keys and prices at a program point agree with the stored job. */
  ghost predicate PcFits(pc: Pc, stored: Job) { HeldFits(Held(pc), stored) && QuoteFits(pc, stored) && PlanFits(pc) }

  /** The receipt a program point carries is booked in the ledger. */
  ghost predicate PcMoney(l: Billing.Ledger, id: Id, pc: Pc) {
    && (Held(pc).Some? ==> JobMoney(l, Held(pc).value))
    && (pc.Swapping? && pc.mutation.ByFinalizer? ==> ChargeGuarded(l, id, pc.mutation.f))
    && (pc.ChargeRereading? ==> ChargeGuarded(l, id, pc.charge))
  }

  ghost predicate CompensatorFits(l: Billing.Ledger, id: Id, cpc: CompPc) {
    && (HeldByCompensator(cpc).Some? ==>
          Bounded(HeldByCompensator(cpc).value) && JobMoney(l, HeldByCompensator(cpc).value) && HeldByCompensator(cpc).value.spec.id == id)
    && (cpc.CompSwapping? ==> Guarded(cpc.job, ByCompensation(cpc.mutation)))
    && (cpc.Refunding? ==> InCompensation(cpc.job) && cpc.job.money.txn.Some?)
  }

  lemma ProcessPlans(pc: Pc, a: Answer, owner: string, until: int)
    requires PlanFits(pc)
    ensures PlanFits(AdvanceProcess(pc, a, owner, until))
    ensures InProcess(pc) ==> QuoteAt(AdvanceProcess(pc, a, owner, until)).None?
  {
  }

  lemma FinalizePlans(pc: Pc, stored: Job, a: Answer)
    requires PlanFits(pc)
    ensures PlanFits(AdvanceFinalize(pc, stored, a))
  {
  }

  lemma FinalizeQuotes(pc: Pc, stored: Job, a: Answer)
    requires QuoteFits(pc, stored) && SnapshotOf(Held(pc), stored)
    ensures QuoteFits(AdvanceFinalize(pc, stored, a), stored)
  {
  }

  lemma AdvanceFits(pc: Pc, stored: Job, a: Answer, owner: string, until: int)
    requires PcFits(pc, stored) && Bounded(stored) && SnapshotOf(Held(pc), stored)
    ensures PcFits(Advance(pc, stored, a, owner, until), stored)
  {
    AdvanceHolds(pc, stored, a, owner, until);
    if InProcess(pc) { ProcessPlans(pc, a, owner, until); }
    else {
      FinalizePlans(pc, stored, a);
      FinalizeQuotes(pc, stored, a);
    }
  }

  lemma ProcessMoney(l: Billing.Ledger, id: Id, pc: Pc, a: Answer, owner: string, until: int)
    requires PcMoney(l, id, pc)
    ensures PcMoney(l, id, AdvanceProcess(pc, a, owner, until))
  {
  }

  lemma FinalizeMoney(l: Billing.Ledger, id: Id, pc: Pc, stored: Job, a: Answer)
    requires PcMoney(l, id, pc) && JobMoney(l, stored) && stored.spec.id == id
    ensures PcMoney(l, id, AdvanceFinalize(pc, stored, a))
  {
  }

  lemma AdvanceMoney(l: Billing.Ledger, id: Id, pc: Pc, stored: Job, a: Answer, owner: string, until: int)
    requires PcMoney(l, id, pc) && JobMoney(l, stored) && stored.spec.id == id
    ensures PcMoney(l, id, Advance(pc, stored, a, owner, until))
  {
    if InProcess(pc) { ProcessMoney(l, id, pc, a, owner, until); } else { FinalizeMoney(l, id, pc, stored, a); }
  }

  lemma AfterSwapFits(pc: Pc, stored: Job, now: int, updated: Job, owner: string, until: int)
    requires pc.Swapping? && PcFits(pc, stored) && Bounded(updated) && Develops(stored, updated)
    ensures PcFits(AfterSwap(pc, updated, owner, until), updated)
  {
  }

  lemma AfterSwapMoney(l: Billing.Ledger, id: Id, pc: Pc, updated: Job, owner: string, until: int)
    requires pc.Swapping? && JobMoney(l, updated)
    ensures PcMoney(l, id, AfterSwap(pc, updated, owner, until))
  {
  }

  lemma AfterRefusalFits(l: Billing.Ledger, pc: Pc, stored: Job, conflict: bool, commitError: Option<Failure>, retryable: bool)
    requires pc.Swapping? && PcFits(pc, stored) && PcMoney(l, stored.spec.id, pc)
    ensures PcFits(AfterRefusal(pc, conflict, commitError, retryable), stored)
    ensures PcMoney(l, stored.spec.id, AfterRefusal(pc, conflict, commitError, retryable))
  {
  }

  lemma AfterChargeFits(l: Billing.Ledger, pc: Pc, stored: Job, result: Result<Billing.Receipt, Failure>)
    requires pc.Paying? && PcFits(pc, stored) && PcMoney(l, stored.spec.id, pc)
    requires result.Ok? ==> result.value.id == Billing.ChargeTxn(stored.spec.id) && ChargeRecorded(l, stored.spec.id, result.value.txn.points, result.value.txn.breakdown)
    ensures PcFits(AfterCharge(pc, result), stored) && PcMoney(l, stored.spec.id, AfterCharge(pc, result))
  {
  }

  lemma AfterRefundFits(l: Billing.Ledger, id: Id, job: Job, result: Result<Billing.Receipt, Failure>)
    requires CompensatorFits(l, id, Refunding(job))
    ensures CompensatorFits(l, id, AfterRefund(job, result))
  {
  }

  lemma ClaimedFits(l: Billing.Ledger, id: Id, a: Job, owner: string, until: int, now: int, b: Job)
    requires StepsTo(a, ByCompensation(ClaimCompensation(owner, until)), now, b) && a.money.txn.Some?
    requires Bounded(b) && JobMoney(l, b) && b.spec.id == id
    ensures CompensatorFits(l, id, Refunding(b))
  {
  }

  /** Other parties' changes leave a program point as sound as it was. */
  lemma PcStaysFit(pc: Pc, stored: Job, later: Job)
    requires PcFits(pc, stored) && Develops(stored, later)
    ensures PcFits(pc, later)
  {
  }

  // ---------------------------------------------------------------- the ledger

  /** A booked charge is the frozen price of its job, under the one key that job ever uses. */
  ghost predicate ChargeFits(x: Billing.Txn, j: Job) {
    && x.key == ChargeKeyOf(j) && x.user == j.spec.user && x.reference.None?
    && x.operation == j.spec.operation && x.batch == j.spec.batch && x.job == j.spec.id
    && j.quote == Some(Quote(x.points, x.breakdown)) && x.points > 0
    && x.user != "" && x.key != Billing.NamedKey("")
  }

  /** A booked refund gives back exactly the charge of its job. */
  ghost predicate RefundFits(l: Billing.Ledger, id: Id, x: Billing.Txn) {
    var c := Billing.ChargeTxn(id);
    && x.key == Billing.RefundKey(id, c) && x.reference == Some(c)
    && c in l.txns && l.txns[c].kind == Billing.Charge && x.points == l.txns[c].points
  }

  ghost predicate TxnFits(l: Billing.Ledger, jobs: Jobs, t: Billing.TxnId)
    requires t in l.txns
  {
    match l.txns[t].kind
    case Credit => t.NamedTxn?
    case Charge => t.ChargeTxn? && t.job in jobs && jobs[t.job].spec.id == t.job && ChargeFits(l.txns[t], jobs[t.job])
    case Refund => t.RefundTxn? && RefundFits(l, t.job, l.txns[t])
  }

  /** Every booking belongs to one job, and there is one charge and one refund id per job. */
  ghost predicate LedgerFits(l: Billing.Ledger, jobs: Jobs) {
    LC.IndexInv(l) && forall t :: t in l.txns ==> TxnFits(l, jobs, t)
  }

  /** Bookings are never removed or rewritten. */
  ghost predicate Extends(l: Billing.Ledger, l': Billing.Ledger) {
    forall t :: t in l.txns ==> t in l'.txns && l'.txns[t] == l.txns[t]
  }

  /** A new booking that fits, under a new id and a new key, keeps the ledger in order. */
  lemma BookFits(l: Billing.Ledger, jobs: Jobs, r: Billing.Request, kind: Billing.Kind)
    requires LedgerFits(l, jobs) && r.user in l.accounts && r.key !in l.byKey && r.txn !in l.txns
    requires TxnFits(Billing.Book(l, r, kind).0, jobs, r.txn)
    ensures LedgerFits(Billing.Book(l, r, kind).0, jobs) && Extends(l, Billing.Book(l, r, kind).0)
  {
    var l' := Billing.Book(l, r, kind).0;
    LC.BookKeepsIndex(l, r, kind);
    forall t | t in l'.txns ensures TxnFits(l', jobs, t) {
      if t != r.txn { assert TxnFits(l, jobs, t); }
    }
  }

  /** The charge id of a job is only ever used under the job's own key. */
  lemma ChargeIdFree(l: Billing.Ledger, jobs: Jobs, id: Id)
    requires LedgerFits(l, jobs) && id in jobs && ChargeKeyOf(jobs[id]) !in l.byKey
    ensures Billing.ChargeTxn(id) !in l.txns
  {
  }

  lemma RefundIdFree(l: Billing.Ledger, jobs: Jobs, id: Id)
    requires LedgerFits(l, jobs) && Billing.RefundKey(id, Billing.ChargeTxn(id)) !in l.byKey
    ensures Billing.RefundTxn(id) !in l.txns
  {
  }

  /** Who may charge: a worker whose snapshot carries the job's key and whose price is the frozen one. */
  ghost predicate MayCharge(jobs: Jobs, held: Job, quote: Quote) {
    var id := held.spec.id;
    id in jobs && jobs[id].spec == held.spec && ChargeKeyOf(held) == ChargeKeyOf(jobs[id]) && jobs[id].quote == Some(quote)
  }

  lemma ChargeKeepsLedger(l: Billing.Ledger, jobs: Jobs, held: Job, quote: Quote)
    requires LedgerFits(l, jobs) && MayCharge(jobs, held, quote)
    ensures var (l', result) := Billing.Mutate(l, ChargeRequest(held, quote), Billing.Charge);
            && LedgerFits(l', jobs) && Extends(l, l')
            && (l' != l ==> Billing.ChargeTxn(held.spec.id) !in l.txns && Billing.Books(l, ChargeRequest(held, quote), Billing.Charge))
            && (result.Ok? ==>
                  && result.value.id == Billing.ChargeTxn(held.spec.id)
                  && ChargeRecorded(l', held.spec.id, result.value.txn.points, result.value.txn.breakdown))
  {
    var r := ChargeRequest(held, quote);
    if Billing.Books(l, r, Billing.Charge) {
      ChargeIdFree(l, jobs, held.spec.id);
      BookFits(l, jobs, r, Billing.Charge);
    } else if Billing.Mutate(l, r, Billing.Charge).1.Ok? {
      assert TxnFits(l, jobs, l.byKey[r.key]);
    }
  }

  lemma RefundKeepsLedger(l: Billing.Ledger, jobs: Jobs, held: Job)
    requires LedgerFits(l, jobs) && held.money.txn.Some? && JobMoney(l, held)
    ensures var (l', result) := Billing.Mutate(l, RefundRequest(held), Billing.Refund);
            && LedgerFits(l', jobs) && Extends(l, l')
            && (l' != l ==> Billing.RefundTxn(held.spec.id) !in l.txns && Billing.Books(l, RefundRequest(held), Billing.Refund))
  {
    var r := RefundRequest(held);
    if Billing.Books(l, r, Billing.Refund) {
      RefundIdFree(l, jobs, held.spec.id);
      BookFits(l, jobs, r, Billing.Refund);
    }
  }

  /** The ledger only gains bookings, and those in order. */
  ghost predicate InOrder(l: Billing.Ledger, l': Billing.Ledger, jobs: Jobs) { LedgerFits(l', jobs) && Extends(l, l') }

  lemma CreditKeepsLedger(l: Billing.Ledger, jobs: Jobs, r: Billing.Request)
    requires LedgerFits(l, jobs) && r.txn.NamedTxn? && (r.key !in l.byKey ==> r.txn !in l.txns)
    ensures LedgerFits(Billing.Mutate(l, r, Billing.Credit).0, jobs) && Extends(l, Billing.Mutate(l, r, Billing.Credit).0)
  {
    if Billing.Books(l, r, Billing.Credit) { BookFits(l, jobs, r, Billing.Credit); }
  }

  /** Once booked, a charge is answered to every repetition, whoever repeats it and whatever the balance. */
  lemma RepeatedChargeIsAnswered(l: Billing.Ledger, jobs: Jobs, held: Job, quote: Quote)
    requires LedgerFits(l, jobs) && MayCharge(jobs, held, quote) && Billing.ChargeTxn(held.spec.id) in l.txns
    ensures var (l', result) := Billing.Mutate(l, ChargeRequest(held, quote), Billing.Charge);
            l' == l && result.Ok? && result.value.duplicate && result.value.id == Billing.ChargeTxn(held.spec.id)
  {
    assert TxnFits(l, jobs, Billing.ChargeTxn(held.spec.id));
  }

  lemma JobMoneyPersists(l: Billing.Ledger, l': Billing.Ledger, j: Job)
    requires JobMoney(l, j) && Extends(l, l')
    ensures JobMoney(l', j)
  {
  }

  lemma PcMoneyPersists(l: Billing.Ledger, l': Billing.Ledger, id: Id, pc: Pc)
    requires PcMoney(l, id, pc) && Extends(l, l')
    ensures PcMoney(l', id, pc)
  {
  }

  /** Jobs only develop, so what the ledger booked for them stays right. */
  lemma LedgerStaysFit(l: Billing.Ledger, jobs: Jobs, jobs': Jobs)
    requires LedgerFits(l, jobs) && forall id :: id in jobs ==> id in jobs' && Develops(jobs[id], jobs'[id])
    ensures LedgerFits(l, jobs')
  {
    forall t | t in l.txns ensures TxnFits(l, jobs', t) {
      assert TxnFits(l, jobs, t);
    }
  }
}
