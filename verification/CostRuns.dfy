/** The cost summary of a batch, in every run. */
module CostRuns {
  import opened Basics
  import opened GenerationModels
  import opened JobMutations
  import opened WorkflowStore
  import opened BatchTransactions
  import opened BatchCost
  import opened StoreInvariants
  import opened Workers
  import opened World
  import opened Snapshots
  import opened StoredChanges
  import opened MoneyRules
  import opened MoneyRuns
  import Billing

  /** Charges carry the id of their own job. */
  ghost predicate OwnCharge(j: Job) {
    && (j.money.txn.None? ==> j.money.charged == 0)
    && (j.money.txn.Some? ==> j.money.txn == Some(Billing.ChargeTxn(j.spec.id)))
    && 0 <= j.money.compensated <= j.money.charged
  }

  lemma {:induction false} NoChargeSkipped(jobs: seq<Job>)
    requires DistinctIds(jobs) && forall i :: 0 <= i < |jobs| ==> OwnCharge(jobs[i])
    ensures SkippedCharges(jobs) == 0 && SkippedRefunds(jobs) >= 0
    ensures 0 <= TotalCompensated(jobs) <= TotalCharged(jobs)
    decreases |jobs|
  {
    if jobs != [] {
      NoChargeSkipped(jobs[..|jobs| - 1]);
      assert OwnCharge(jobs[|jobs| - 1]);
    }
  }

  lemma {:induction false} RefundedIsPositive(jobs: seq<Job>)
    requires forall i :: 0 <= i < |jobs| ==> jobs[i].money.compensated >= 0
    ensures Fold(jobs).refunded >= 0
    decreases |jobs|
  {
    if jobs != [] {
      RefundedIsPositive(jobs[..|jobs| - 1]);
      assert Fold(jobs).refunded == AddRefund(Fold(jobs[..|jobs| - 1]), jobs[|jobs| - 1]).refunded;
    }
  }

  lemma OwnChargesAddUp(jobs: seq<Job>)
    requires DistinctIds(jobs) && forall i :: 0 <= i < |jobs| ==> OwnCharge(jobs[i])
    ensures CostOf(jobs).gross == TotalCharged(jobs)
    ensures 0 <= CostOf(jobs).net <= CostOf(jobs).gross
    ensures TotalCharged(jobs) - TotalCompensated(jobs) <= CostOf(jobs).net
  {
    NoChargeSkipped(jobs);
    CostAccountsForEveryJob(jobs);
    RefundedIsPositive(jobs);
  }

  /**
   In every reachable state the gross cost of a batch is the sum of its jobs' charges and the net cost lies between
   zero and that; no charge is ever counted twice or missed, whatever the manual refund ids are.
   */
  lemma BatchCostAddsUp(labels: seq<Label>, b: Id)
    requires b in Run(labels).store.batches
    ensures Linked(Run(labels).store, b)
    ensures var jobs := JobsOf(Run(labels).store, b);
            CostOf(jobs).gross == TotalCharged(jobs) && 0 <= CostOf(jobs).net <= CostOf(jobs).gross
  {
    RunKeepsMoney(labels);
    var w := Run(labels);
    JobsOfIds(w.store, b);
    var jobs := JobsOf(w.store, b);
    forall i | 0 <= i < |jobs| ensures OwnCharge(jobs[i]) {
      assert JobMoney(w.ledger, w.store.jobs[jobs[i].spec.id]);
    }
    OwnChargesAddUp(jobs);
  }

  // ---------------------------------------------------------------- the ledger behind the cost

  /** What the job records as refunded is its refund in the ledger. */
  ghost predicate RefundRecorded(l: Billing.Ledger, id: Id, refund: Billing.TxnId, points: int) {
    && refund == Billing.RefundTxn(id) && refund in l.txns && l.txns[refund].kind == Billing.Refund && l.txns[refund].points == points
  }

  ghost predicate RefundBooked(l: Billing.Ledger, j: Job) {
    && (j.money.refund.None? ==> j.money.compensated == 0)
    && (j.money.refund.Some? ==> RefundRecorded(l, j.spec.id, j.money.refund.value, j.money.compensated))
  }

  /** A compensator that is about to record a refund has it from the ledger; none finalizes manually. */
  ghost predicate AutomaticPlan(l: Billing.Ledger, id: Id, th: Thread) {
    th.Compensator? && th.cpc.CompSwapping? ==>
      && !th.cpc.mutation.FinalizeManually?
      && (th.cpc.mutation.CompleteCompensation? ==> RefundRecorded(l, id, th.cpc.mutation.refund, th.cpc.mutation.points))
  }

  ghost predicate AutomaticInv(w: World) {
    && RefundsBooked(w.ledger, w.store.jobs)
    && (forall t :: t in w.threads && w.threads[t].Compensator? ==> AutomaticPlan(w.ledger, w.threads[t].job, w.threads[t]))
  }

  lemma WorkerKeepsRefund(l: Billing.Ledger, a: Job, m: WorkerMutation, now: int, b: Job)
    requires StepsTo(a, ByWorker(m), now, b) && RefundBooked(l, a)
    ensures RefundBooked(l, b)
  {
  }

  lemma FinalizerKeepsRefund(l: Billing.Ledger, a: Job, m: FinalMutation, now: int, b: Job)
    requires StepsTo(a, ByFinalizer(m), now, b) && RefundBooked(l, a)
    ensures RefundBooked(l, b)
  {
  }

  lemma CompensationKeepsRefund(l: Billing.Ledger, a: Job, m: CompMutation, now: int, b: Job)
    requires StepsTo(a, ByCompensation(m), now, b) && RefundBooked(l, a) && !m.FinalizeManually?
    requires m.CompleteCompensation? ==> RefundRecorded(l, a.spec.id, m.refund, m.points)
    ensures RefundBooked(l, b)
  {
  }

  lemma CancelKeepsRefund(l: Billing.Ledger, a: Job, now: int)
    requires RefundBooked(l, a)
    ensures RefundBooked(l, CancelledNow(a, now))
  {
  }

  lemma ChangeKeepsRefund(w: World, l: Label, a: Job, b: Job)
    requires JobChanged(w, l, a, b) && RefundBooked(w.ledger, a) && ActorIn(w, l)
    requires l.CompSwap? && l.t in w.threads && w.threads[l.t].Compensator? ==> AutomaticPlan(w.ledger, w.threads[l.t].job, w.threads[l.t])
    ensures RefundBooked(w.ledger, b)
  {
    if Swapped(w, l, a, b) {
      if l.Swap? {
        var m := w.threads[l.t].pc.mutation;
        if m.ByWorker? { WorkerKeepsRefund(w.ledger, a, m.w, l.now, b); } else { FinalizerKeepsRefund(w.ledger, a, m.f, l.now, b); }
      } else {
        CompensationKeepsRefund(w.ledger, a, w.threads[l.t].cpc.mutation, l.now, b);
      }
    } else if CancelledBy(l, a, b) {
      CancelKeepsRefund(w.ledger, a, l.op.now);
    }
  }

  ghost predicate RefundsBooked(l: Billing.Ledger, jobs: Jobs) { forall id :: id in jobs ==> RefundBooked(l, jobs[id]) }

  lemma JobsStayBooked(w: World, l: Label)
    requires Coherent(w) && ActorIn(w, l) && RefundsBooked(w.ledger, w.store.jobs)
    requires l.CompSwap? && l.t in w.threads && w.threads[l.t].Compensator? ==> AutomaticPlan(w.ledger, w.threads[l.t].job, w.threads[l.t])
    ensures RefundsBooked(w.ledger, Step(w, l).store.jobs)
  {
    var jobs, jobs' := w.store.jobs, Step(w, l).store.jobs;
    forall id | id in jobs' ensures RefundBooked(w.ledger, jobs'[id]) {
      StoredChange(w, l, id);
      if id in jobs { ChangeKeepsRefund(w, l, jobs[id], jobs'[id]); }
    }
  }

  lemma RefundPersists(l: Billing.Ledger, l': Billing.Ledger, jobs: Jobs)
    requires Extends(l, l') && RefundsBooked(l, jobs)
    ensures RefundsBooked(l', jobs)
  {
  }

  /** The ledger answers a refund under the id of the job's own refund. */
  lemma RefundAnswer(l: Billing.Ledger, jobs: Jobs, held: Job)
    requires LedgerFits(l, jobs) && held.money.txn.Some? && JobMoney(l, held)
    ensures var (l', result) := Billing.Mutate(l, RefundRequest(held), Billing.Refund);
            result.Ok? ==> RefundRecorded(l', held.spec.id, result.value.id, result.value.txn.points)
  {
    var r := RefundRequest(held);
    if r.key in l.byKey && l.byKey[r.key] in l.txns { assert TxnFits(l, jobs, l.byKey[r.key]); }
  }

  lemma RefundPlan(l: Billing.Ledger, jobs: Jobs, held: Job, g: Gateway)
    requires LedgerFits(l, jobs) && held.money.txn.Some? && JobMoney(l, held)
    ensures var (l', result) := ThroughGateway(l, RefundRequest(held), Billing.Refund, g);
            AutomaticPlan(l', held.spec.id, Compensator(held.spec.id, AfterRefund(held, result)))
  {
    RefundAnswer(l, jobs, held);
  }

  lemma PlanPersists(l: Billing.Ledger, l': Billing.Ledger, id: Id, th: Thread)
    requires Extends(l, l') && AutomaticPlan(l, id, th)
    ensures AutomaticPlan(l', id, th)
  {
  }

  /** The labels that move a compensator. */
  predicate MovesCompensator(l: Label) { l.StartCompensation? || l.StartManual? || l.CompSwap? || l.CallRefund? }

  lemma OtherLabelsSpare(w: World, l: Label, t: nat)
    requires !MovesCompensator(l) && t in Step(w, l).threads && Step(w, l).threads[t].Compensator?
    ensures t in w.threads && w.threads[t] == Step(w, l).threads[t]
  {
  }

  ghost predicate ThreadAutomatic(l: Billing.Ledger, threads: map<nat, Thread>, t: nat) {
    t in threads && threads[t].Compensator? ==> AutomaticPlan(l, threads[t].job, threads[t])
  }

  lemma StartAutomatic(w: World, t: nat, job: Id, now: int, owner: string, until: int)
    requires ThreadAutomatic(w.ledger, w.threads, t)
    ensures ThreadAutomatic(w.ledger, Step(w, StartCompensation(t, job, now, owner, until)).threads, t)
  {
  }

  lemma CompSwapAutomatic(w: World, t: nat, now: int)
    requires ThreadAutomatic(w.ledger, w.threads, t)
    ensures ThreadAutomatic(w.ledger, Step(w, CompSwap(t, now)).threads, t)
  {
  }

  lemma RefundAutomatic(w: World, t: nat, g: Gateway)
    requires ThreadAutomatic(w.ledger, w.threads, t) && LedgerFits(w.ledger, w.store.jobs) && ActorIn(w, CallRefund(t, g))
    ensures ThreadAutomatic(Step(w, CallRefund(t, g)).ledger, Step(w, CallRefund(t, g)).threads, t)
  {
    RefundStepIs(w, t, g);
    if RefundReady(w, t) { RefundPlan(w.ledger, w.store.jobs, w.threads[t].cpc.job, g); }
  }

  lemma ThreadsStayAutomatic(w: World, l: Label, t: nat)
    requires !l.StartManual? && ThreadAutomatic(w.ledger, w.threads, t) && LedgerFits(w.ledger, w.store.jobs) && ActorIn(w, l)
    requires Extends(w.ledger, Step(w, l).ledger) && (MovesCompensator(l) && !l.CallRefund? ==> Step(w, l).ledger == w.ledger)
    ensures ThreadAutomatic(Step(w, l).ledger, Step(w, l).threads, t)
  {
    if Actor(l) == Some(t) && MovesCompensator(l) {
      match l {
        case StartCompensation(_, job, now, owner, until) => StartAutomatic(w, t, job, now, owner, until);
        case CompSwap(_, now) => CompSwapAutomatic(w, t, now);
        case CallRefund(_, g) => RefundAutomatic(w, t, g);
      }
    } else if t in Step(w, l).threads && Step(w, l).threads[t].Compensator? {
      if MovesCompensator(l) { OthersStay(w, l, t); } else { OtherLabelsSpare(w, l, t); }
      PlanPersists(w.ledger, Step(w, l).ledger, w.threads[t].job, w.threads[t]);
    }
  }

  lemma StepAutomatic(w: World, l: Label)
    requires Coherent(w) && MoneyInv(w) && AutomaticInv(w) && !l.StartManual?
    ensures AutomaticInv(Step(w, l))
  {
    ActorKnown(w, l);
    JobsStayBooked(w, l);
    LedgerAfterStep(w, l);
    LedgerStaysInOrder(w, l);
    RefundPersists(w.ledger, Step(w, l).ledger, Step(w, l).store.jobs);
    forall t | t in Step(w, l).threads && Step(w, l).threads[t].Compensator?
      ensures AutomaticPlan(Step(w, l).ledger, Step(w, l).threads[t].job, Step(w, l).threads[t])
    {
      ThreadsStayAutomatic(w, l, t);
    }
  }

  /** A run in which nobody finalizes a compensation by hand. */
  ghost predicate AutomaticRun(labels: seq<Label>) { forall i :: 0 <= i < |labels| ==> !labels[i].StartManual? }

  lemma {:induction false} RunAutomatic(labels: seq<Label>)
    requires AutomaticRun(labels)
    ensures AutomaticInv(Run(labels))
    decreases |labels|
  {
    if labels != [] {
      var shorter := labels[..|labels| - 1];
      RunAutomatic(shorter);
      RunKeepsMoney(shorter);
      StepAutomatic(Run(shorter), labels[|labels| - 1]);
    }
  }

  /** The points the ledger booked under the ids that the jobs record. */
  ghost function LedgerPoints(l: Billing.Ledger, t: Option<Billing.TxnId>): int {
    if t.Some? && t.value in l.txns then l.txns[t.value].points else 0
  }

  ghost function BookedCharges(l: Billing.Ledger, jobs: seq<Job>): int {
    if jobs == [] then 0 else BookedCharges(l, jobs[..|jobs| - 1]) + LedgerPoints(l, jobs[|jobs| - 1].money.txn)
  }

  ghost function BookedRefunds(l: Billing.Ledger, jobs: seq<Job>): int {
    if jobs == [] then 0 else BookedRefunds(l, jobs[..|jobs| - 1]) + LedgerPoints(l, jobs[|jobs| - 1].money.refund)
  }

  lemma {:induction false} JobsCarryBookings(l: Billing.Ledger, jobs: seq<Job>)
    requires forall i :: 0 <= i < |jobs| ==> JobMoney(l, jobs[i])
    ensures TotalCharged(jobs) == BookedCharges(l, jobs)
    ensures (forall i :: 0 <= i < |jobs| ==> RefundBooked(l, jobs[i])) ==> TotalCompensated(jobs) == BookedRefunds(l, jobs)
    decreases |jobs|
  {
    if jobs != [] {
      var n := |jobs| - 1;
      JobsCarryBookings(l, jobs[..n]);
      assert JobMoney(l, jobs[n]);
      if forall i :: 0 <= i < |jobs| ==> RefundBooked(l, jobs[i]) {
        assert forall i :: 0 <= i < n ==> RefundBooked(l, jobs[..n][i]);
        assert RefundBooked(l, jobs[n]);
      }
    }
  }

  lemma OwnRefundsCount(l: Billing.Ledger, jobs: seq<Job>)
    requires DistinctIds(jobs) && forall i :: 0 <= i < |jobs| ==> RefundBooked(l, jobs[i]) && jobs[i].money.compensated >= 0
    ensures CostOf(jobs).refunded == TotalCompensated(jobs)
  {
    forall i | 0 <= i < |jobs| && !CountsRefund(jobs, i) ensures jobs[i].money.compensated == 0 {
      assert RefundBooked(l, jobs[i]);
      assert forall k :: 0 <= k < i && jobs[k].money.refund.Some? ==> jobs[k].money.refund.value == Billing.RefundTxn(jobs[k].spec.id);
    }
    RefundedIsCompleteIff(jobs);
  }

  /**
   The cost of a batch is what the ledger booked for its jobs: in every run the gross cost is the sum of the recorded charges,
   and in runs without manual finalization nothing refunded is missed and the refunded cost is the sum of the recorded refunds.
   */
  lemma CostIsInTheLedger(labels: seq<Label>, b: Id)
    requires b in Run(labels).store.batches
    ensures Linked(Run(labels).store, b)
    ensures var w := Run(labels); var jobs := JobsOf(w.store, b);
            && CostOf(jobs).gross == BookedCharges(w.ledger, jobs)
            && (AutomaticRun(labels) ==> CostOf(jobs).refunded == TotalCompensated(jobs) == BookedRefunds(w.ledger, jobs))
  {
    BatchCostAddsUp(labels, b);
    RunKeepsMoney(labels);
    var w := Run(labels);
    JobsOfIds(w.store, b);
    if AutomaticRun(labels) { RunAutomatic(labels); }
    CostFromBookings(w, b, AutomaticRun(labels));
  }

  lemma CostFromBookings(w: World, b: Id, automatic: bool)
    requires Links(w.store) && b in w.store.batches && JobsFit(w.ledger, w.store.jobs) && (automatic ==> RefundsBooked(w.ledger, w.store.jobs))
    ensures Linked(w.store, b)
    ensures var jobs := JobsOf(w.store, b);
            TotalCharged(jobs) == BookedCharges(w.ledger, jobs)
            && (automatic ==> CostOf(jobs).refunded == TotalCompensated(jobs) == BookedRefunds(w.ledger, jobs))
  {
    JobsOfIds(w.store, b);
    var jobs := JobsOf(w.store, b);
    forall i | 0 <= i < |jobs| ensures JobMoney(w.ledger, jobs[i]) && (automatic ==> RefundBooked(w.ledger, jobs[i])) {
      assert jobs[i] == w.store.jobs[jobs[i].spec.id];
    }
    JobsCarryBookings(w.ledger, jobs);
    if automatic { OwnRefundsCount(w.ledger, jobs); }
  }
}
