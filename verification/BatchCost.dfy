/** The cost summary the barrier freezes on a batch. */
module BatchCost {
  import opened Basics
  import opened GenerationModels
  import opened JobMutations
  import opened Workers
  import Billing

  type Breakdown = Billing.Breakdown

  function Get(m: Breakdown, k: string): int { if k in m then m[k] else 0 }

  /** Key-wise addition of `b` into `a`. */
  function AddBreakdown(a: Breakdown, b: Breakdown): Breakdown {
    map k | k in a.Keys + b.Keys :: Get(a, k) + Get(b, k)
  }

  /** The accumulator of `aggregateCost`. */
  datatype Acc = Acc(
    charges: set<Billing.TxnId>, refunds: set<Billing.TxnId>,
    gross: int, refunded: int, breakdown: Breakdown, balance: Option<int>, balanceAt: int)

  const START := Acc({}, {}, 0, 0, map[], None, 0)

  function AddCharge(acc: Acc, job: Job): Acc {
    if job.money.txn.Some? && job.money.txn.value !in acc.charges then
      acc.(charges := acc.charges + {job.money.txn.value}, gross := acc.gross + job.money.charged,
           breakdown := AddBreakdown(acc.breakdown, job.money.breakdown))
    else acc
  }

  function AddRefund(acc: Acc, job: Job): Acc {
    if job.money.refund.Some? && job.money.refund.value !in acc.refunds then
      acc.(refunds := acc.refunds + {job.money.refund.value}, refunded := acc.refunded + job.money.compensated)
    else acc
  }

  function AddBalance(acc: Acc, job: Job): Acc {
    if job.money.balanceAfter.Some? && (acc.balance.None? || job.updatedAt > acc.balanceAt) then
      acc.(balance := job.money.balanceAfter, balanceAt := job.updatedAt)
    else acc
  }

  function Fold(jobs: seq<Job>): Acc {
    if jobs == [] then START
    else
      var last := jobs[|jobs| - 1];
      AddBalance(AddRefund(AddCharge(Fold(jobs[..|jobs| - 1]), last), last), last)
  }

  function Finish(acc: Acc): Cost {
    Cost(acc.gross, acc.refunded, acc.gross - acc.refunded,
         if acc.refunded != 0 then acc.breakdown["refund" := Get(acc.breakdown, "refund") - acc.refunded] else acc.breakdown,
         acc.balance)
  }

  function CostOf(jobs: seq<Job>): Cost { Finish(Fold(jobs)) }

  /** `aggregateCost`, with its two seen-sets and the inner loop over the breakdown's keys. */
  method AggregateCost(jobs: seq<Job>) returns (cost: Cost)
    ensures cost == CostOf(jobs)
  {
    var charges: set<Billing.TxnId>, refunds: set<Billing.TxnId> := {}, {};
    var gross, refunded, balance, balanceAt := 0, 0, None, 0;
    var breakdown: Breakdown := map[];
    for i := 0 to |jobs|
      invariant Fold(jobs[..i]) == Acc(charges, refunds, gross, refunded, breakdown, balance, balanceAt)
    {
      var money := jobs[i].money;
      assert jobs[..i + 1][..i] == jobs[..i];
      if money.txn.Some? && money.txn.value !in charges {
        charges := charges + {money.txn.value};
        gross := gross + money.charged;
        breakdown := MergeInto(breakdown, money.breakdown);
      }
      if money.refund.Some? && money.refund.value !in refunds {
        refunds := refunds + {money.refund.value};
        refunded := refunded + money.compensated;
      }
      if money.balanceAfter.Some? && (balance.None? || jobs[i].updatedAt > balanceAt) {
        balance, balanceAt := money.balanceAfter, jobs[i].updatedAt;
      }
    }
    assert jobs[..|jobs|] == jobs;
    if refunded != 0 {
      breakdown := breakdown["refund" := Get(breakdown, "refund") - refunded];
    }
    cost := Cost(gross, refunded, gross - refunded, breakdown, balance);
  }

  method MergeInto(a: Breakdown, b: Breakdown) returns (r: Breakdown)
    ensures r == AddBreakdown(a, b)
  {
    r := a;
    var rest := b.Keys;
    ghost var done: Breakdown := map[];
    AddNothing(a);
    while rest != {}
      invariant rest <= b.Keys
      invariant done == b - rest
      invariant r == AddBreakdown(a, done)
      decreases |rest|
    {
      var k :| k in rest;
      AddOne(a, done, k, b[k]);
      assert b - (rest - {k}) == done[k := b[k]];
      done := done[k := b[k]];
      r := r[k := Get(r, k) + b[k]];
      rest := rest - {k};
    }
    assert done == b;
  }

  lemma AddNothing(a: Breakdown)
    ensures AddBreakdown(a, map[]) == a
  {
  }

  lemma AddOne(a: Breakdown, b: Breakdown, k: string, v: int)
    requires k !in b
    ensures AddBreakdown(a, b[k := v]) == AddBreakdown(a, b)[k := Get(a, k) + v]
    ensures Get(AddBreakdown(a, b), k) == Get(a, k)
  {
    var left, right := AddBreakdown(a, b[k := v]), AddBreakdown(a, b)[k := Get(a, k) + v];
    assert left.Keys == right.Keys;
  }

  // ---------------------------------------------------------------- breakdown sums

  lemma SumUpdate(m: Breakdown, k: string, v: int)
    ensures SumValues(m[k := v]) == SumValues(m) - Get(m, k) + v
  {
    if k in m {
      SumRemove(m, k);
      SumRemove(m[k := v], k);
      assert m[k := v] - {k} == m - {k};
    } else {
      SumInsert(m, k, v);
    }
  }

  lemma {:induction false} SumAddBreakdown(a: Breakdown, b: Breakdown)
    ensures SumValues(AddBreakdown(a, b)) == SumValues(a) + SumValues(b)
    decreases |b|
  {
    if b == map[] {
      AddNothing(a);
    } else {
      var k :| k in b;
      var rest := b - {k};
      assert b == rest[k := b[k]];
      SumAddBreakdown(a, rest);
      SumRemove(b, k);
      AddOne(a, rest, k, b[k]);
      SumUpdate(AddBreakdown(a, rest), k, Get(a, k) + b[k]);
    }
  }

  // ---------------------------------------------------------------- totals

  /** The first job of the list that carries this charge, as opposed to a repetition. */
  ghost predicate CountsCharge(jobs: seq<Job>, i: nat)
    requires i < |jobs|
  {
    jobs[i].money.txn.Some? && forall k :: 0 <= k < i ==> jobs[k].money.txn != jobs[i].money.txn
  }

  ghost predicate CountsRefund(jobs: seq<Job>, i: nat)
    requires i < |jobs|
  {
    jobs[i].money.refund.Some? && forall k :: 0 <= k < i ==> jobs[k].money.refund != jobs[i].money.refund
  }

  ghost function TotalCharged(jobs: seq<Job>): int {
    if jobs == [] then 0 else TotalCharged(jobs[..|jobs| - 1]) + jobs[|jobs| - 1].money.charged
  }

  ghost function TotalCompensated(jobs: seq<Job>): int {
    if jobs == [] then 0 else TotalCompensated(jobs[..|jobs| - 1]) + jobs[|jobs| - 1].money.compensated
  }

  /** Charged and compensated points that the summary leaves out. */
  ghost function SkippedCharges(jobs: seq<Job>): int {
    if jobs == [] then 0
    else SkippedCharges(jobs[..|jobs| - 1]) + (if CountsCharge(jobs, |jobs| - 1) then 0 else jobs[|jobs| - 1].money.charged)
  }

  ghost function SkippedRefunds(jobs: seq<Job>): int {
    if jobs == [] then 0
    else SkippedRefunds(jobs[..|jobs| - 1]) + (if CountsRefund(jobs, |jobs| - 1) then 0 else jobs[|jobs| - 1].money.compensated)
  }

  lemma {:induction false} ChargeSeen(jobs: seq<Job>, t: Billing.TxnId)
    ensures t in Fold(jobs).charges <==> exists k :: 0 <= k < |jobs| && jobs[k].money.txn == Some(t)
    decreases |jobs|
  {
    if jobs != [] {
      var n := |jobs| - 1;
      var shorter := jobs[..n];
      ChargeSeen(shorter, t);
      assert Fold(jobs).charges == AddCharge(Fold(shorter), jobs[n]).charges;
      assert (exists k :: 0 <= k < |jobs| && jobs[k].money.txn == Some(t)) <==>
             (jobs[n].money.txn == Some(t) || exists k :: 0 <= k < n && shorter[k].money.txn == Some(t)) by {
        assert forall k :: 0 <= k < n ==> shorter[k] == jobs[k];
      }
    }
  }

  lemma {:induction false} RefundSeen(jobs: seq<Job>, t: Billing.TxnId)
    ensures t in Fold(jobs).refunds <==> exists k :: 0 <= k < |jobs| && jobs[k].money.refund == Some(t)
    decreases |jobs|
  {
    if jobs != [] {
      var n := |jobs| - 1;
      var shorter := jobs[..n];
      RefundSeen(shorter, t);
      assert Fold(jobs).refunds == AddRefund(Fold(shorter), jobs[n]).refunds;
      assert (exists k :: 0 <= k < |jobs| && jobs[k].money.refund == Some(t)) <==>
             (jobs[n].money.refund == Some(t) || exists k :: 0 <= k < n && shorter[k].money.refund == Some(t)) by {
        assert forall k :: 0 <= k < n ==> shorter[k] == jobs[k];
      }
    }
  }

  lemma LastCounts(jobs: seq<Job>)
    requires jobs != []
    ensures var n := |jobs| - 1; var acc := Fold(jobs[..n]);
            && (CountsCharge(jobs, n) <==> jobs[n].money.txn.Some? && jobs[n].money.txn.value !in acc.charges)
            && (CountsRefund(jobs, n) <==> jobs[n].money.refund.Some? && jobs[n].money.refund.value !in acc.refunds)
  {
    var n := |jobs| - 1;
    assert forall k :: 0 <= k < n ==> jobs[..n][k] == jobs[k];
    if jobs[n].money.txn.Some? { ChargeSeen(jobs[..n], jobs[n].money.txn.value); }
    if jobs[n].money.refund.Some? { RefundSeen(jobs[..n], jobs[n].money.refund.value); }
  }

  /** Without any assumption: what the summary reports plus what it skips is what the jobs carry. */
  lemma {:induction false} CostAccountsForEveryJob(jobs: seq<Job>)
    ensures CostOf(jobs).gross + SkippedCharges(jobs) == TotalCharged(jobs)
    ensures CostOf(jobs).refunded + SkippedRefunds(jobs) == TotalCompensated(jobs)
    ensures CostOf(jobs).net == CostOf(jobs).gross - CostOf(jobs).refunded
    decreases |jobs|
  {
    if jobs != [] {
      var n := |jobs| - 1;
      CostAccountsForEveryJob(jobs[..n]);
      LastCounts(jobs);
      var acc := Fold(jobs[..n]);
      assert Fold(jobs).gross == AddCharge(acc, jobs[n]).gross;
      assert Fold(jobs).refunded == AddRefund(acc, jobs[n]).refunded;
    }
  }

  lemma {:induction false} SkippedRefundsZero(jobs: seq<Job>)
    requires forall i :: 0 <= i < |jobs| ==> jobs[i].money.compensated >= 0
    ensures SkippedRefunds(jobs) >= 0
    ensures SkippedRefunds(jobs) == 0 <==>
      forall i :: 0 <= i < |jobs| && !CountsRefund(jobs, i) ==> jobs[i].money.compensated == 0
    decreases |jobs|
  {
    if jobs != [] {
      var n := |jobs| - 1;
      SkippedRefundsZero(jobs[..n]);
      forall i | 0 <= i < n ensures CountsRefund(jobs[..n], i) <==> CountsRefund(jobs, i) {
        assert forall k :: 0 <= k <= i ==> jobs[..n][k] == jobs[k];
      }
      assert (forall i :: 0 <= i < n && !CountsRefund(jobs[..n], i) ==> jobs[..n][i].money.compensated == 0) <==>
             (forall i :: 0 <= i < n && !CountsRefund(jobs, i) ==> jobs[i].money.compensated == 0) by {
        assert forall i :: 0 <= i < n ==> jobs[..n][i] == jobs[i];
      }
    }
  }

  /**
   The refunded total is the sum over the jobs exactly when no compensated job lacks a refund id
   or shares it with an earlier one: a manual finalization may reuse an id, and then points go missing.
   */
  lemma RefundedIsCompleteIff(jobs: seq<Job>)
    requires forall i :: 0 <= i < |jobs| ==> jobs[i].money.compensated >= 0
    ensures CostOf(jobs).refunded == TotalCompensated(jobs) <==>
      forall i :: 0 <= i < |jobs| && !CountsRefund(jobs, i) ==> jobs[i].money.compensated == 0
  {
    CostAccountsForEveryJob(jobs);
    SkippedRefundsZero(jobs);
  }

  lemma PairCost(a: Job, b: Job, r: Billing.TxnId)
    requires a.money.refund == Some(r) == b.money.refund
    ensures CostOf([a, b]).refunded == a.money.compensated
    ensures TotalCompensated([a, b]) == a.money.compensated + b.money.compensated
  {
    var two := [a, b];
    assert two[..1] == [a] && [a][..0] == [];
    assert Fold([a]) == AddBalance(AddRefund(AddCharge(START, a), a), a);
    assert Fold(two) == AddBalance(AddRefund(AddCharge(Fold([a]), b), b), b);
    assert TotalCompensated([a]) == a.money.compensated;
  }

  /** Any two different jobs, finalized manually with one refund id: both amounts are refunded, only the first is reported. */
  lemma SharedRefundIdLosesPoints(a: Job, b: Job, p: int, q: int, r: Billing.TxnId, now: int, later: int)
    requires a.spec.id != b.spec.id && p > 0 && q > 0
    requires ManuallyFinalizable(a, p, Some(r)) && ManuallyFinalizable(b, q, Some(r))
    ensures var x, y := ApplyComp(FinalizeManually(p, Some(r)), a, now), ApplyComp(FinalizeManually(q, Some(r)), b, later);
            && x.Ok? && y.Ok? && x.value.job.spec.id != y.value.job.spec.id
            && CostOf([x.value.job, y.value.job]).refunded == p
            && TotalCompensated([x.value.job, y.value.job]) == p + q
  {
    var x, y := ApplyComp(FinalizeManually(p, Some(r)), a, now), ApplyComp(FinalizeManually(q, Some(r)), b, later);
    PairCost(x.value.job, y.value.job, r);
  }

  /** What the finalizer and the compensation service leave on each job. */
  ghost predicate Sound(job: Job) {
    && (job.money.txn.None? ==> job.money.charged == 0)
    && (job.money.refund.None? ==> job.money.compensated == 0)
    && 0 <= job.money.compensated <= job.money.charged
  }

  ghost predicate DistinctTxns(jobs: seq<Job>) {
    forall i, k :: 0 <= i < k < |jobs| ==>
      && (jobs[i].money.txn.Some? ==> jobs[i].money.txn != jobs[k].money.txn)
      && (jobs[i].money.refund.Some? ==> jobs[i].money.refund != jobs[k].money.refund)
  }

  lemma {:induction false} NothingSkipped(jobs: seq<Job>)
    requires DistinctTxns(jobs) && forall i :: 0 <= i < |jobs| ==> Sound(jobs[i])
    ensures SkippedCharges(jobs) == 0 && SkippedRefunds(jobs) == 0
    ensures 0 <= TotalCompensated(jobs) <= TotalCharged(jobs)
    decreases |jobs|
  {
    if jobs != [] {
      NothingSkipped(jobs[..|jobs| - 1]);
      assert Sound(jobs[|jobs| - 1]);
    }
  }

  /** With distinct transactions and bounded refunds the summary is the sum over the jobs. */
  lemma CostIsTheSum(jobs: seq<Job>)
    requires DistinctTxns(jobs) && forall i :: 0 <= i < |jobs| ==> Sound(jobs[i])
    ensures CostOf(jobs).gross == TotalCharged(jobs)
    ensures CostOf(jobs).refunded == TotalCompensated(jobs)
    ensures CostOf(jobs).net == TotalCharged(jobs) - TotalCompensated(jobs)
    ensures 0 <= CostOf(jobs).net <= CostOf(jobs).gross
  {
    NothingSkipped(jobs);
    CostAccountsForEveryJob(jobs);
  }

  lemma {:induction false} FoldBreakdown(jobs: seq<Job>)
    requires forall i :: 0 <= i < |jobs| && jobs[i].money.txn.Some? ==> SumValues(jobs[i].money.breakdown) == jobs[i].money.charged
    ensures SumValues(Fold(jobs).breakdown) == Fold(jobs).gross
    decreases |jobs|
  {
    if jobs != [] {
      var n := |jobs| - 1;
      FoldBreakdown(jobs[..n]);
      var acc, last := Fold(jobs[..n]), jobs[n];
      SumAddBreakdown(acc.breakdown, last.money.breakdown);
      assert Fold(jobs).breakdown == AddCharge(acc, last).breakdown && Fold(jobs).gross == AddCharge(acc, last).gross;
    }
  }

  /** If every job's breakdown adds up to its charge, the merged breakdown adds up to the net cost. */
  lemma BreakdownSumsToNet(jobs: seq<Job>)
    requires forall i :: 0 <= i < |jobs| && jobs[i].money.txn.Some? ==> SumValues(jobs[i].money.breakdown) == jobs[i].money.charged
    ensures SumValues(CostOf(jobs).breakdown) == CostOf(jobs).net
  {
    FoldBreakdown(jobs);
    var acc := Fold(jobs);
    SumUpdate(acc.breakdown, "refund", Get(acc.breakdown, "refund") - acc.refunded);
  }
}
