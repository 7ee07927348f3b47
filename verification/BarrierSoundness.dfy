/** When and how a batch ends, in every run. */
module BarrierSoundness {
  import opened Basics
  import opened GenerationModels
  import opened JobMutations
  import opened WorkflowStore
  import opened BatchTransactions
  import opened BatchCost
  import opened StoreInvariants
  import opened Workers
  import opened World
  import opened Snapshots
  import opened StoredChanges

  // ---------------------------------------------------------------- counting

  ghost function Positions(jobs: seq<Job>, status: JobStatus): set<int> {
    set i | 0 <= i < |jobs| && jobs[i].status == status
  }

  ghost function RequiredPositions(jobs: seq<Job>): set<int> {
    set i | 0 <= i < |jobs| && jobs[i].spec.required
  }

  lemma PositionsExtend(jobs: seq<Job>, status: JobStatus)
    requires jobs != []
    ensures var n := |jobs| - 1;
            Positions(jobs, status) == if jobs[n].status == status then Positions(jobs[..n], status) + {n} else Positions(jobs[..n], status)
  {
    var n := |jobs| - 1;
    assert forall i :: 0 <= i < n ==> jobs[..n][i] == jobs[i];
  }

  /** The recount loop counts positions. */
  lemma {:induction false} CountIsCardinality(jobs: seq<Job>, status: JobStatus)
    ensures Count(jobs, status) == |Positions(jobs, status)|
    decreases |jobs|
  {
    if jobs == [] {
      assert Positions(jobs, status) == {};
    } else {
      var n := |jobs| - 1;
      CountIsCardinality(jobs[..n], status);
      PositionsExtend(jobs, status);
    }
  }

  lemma {:induction false} RequiredIsCardinality(jobs: seq<Job>)
    ensures CountRequired(jobs) == |RequiredPositions(jobs)|
    decreases |jobs|
  {
    if jobs == [] {
      assert RequiredPositions(jobs) == {};
    } else {
      var n := |jobs| - 1;
      RequiredIsCardinality(jobs[..n]);
      var shorter := RequiredPositions(jobs[..n]);
      if jobs[n].spec.required { assert RequiredPositions(jobs) == shorter + {n}; } else { assert RequiredPositions(jobs) == shorter; }
    }
  }

  /** Among finished jobs the three counters partition the list. */
  lemma {:induction false} CountersPartition(jobs: seq<Job>)
    requires forall i :: 0 <= i < |jobs| ==> Terminal(jobs[i])
    ensures Count(jobs, Succeeded) + Count(jobs, Failed) + Count(jobs, Cancelled) == |jobs|
    decreases |jobs|
  {
    if jobs != [] { CountersPartition(jobs[..|jobs| - 1]); }
  }

  lemma {:induction false} CountExtremes(jobs: seq<Job>, status: JobStatus)
    ensures 0 <= Count(jobs, status) <= |jobs|
    ensures Count(jobs, status) == |jobs| <==> forall i :: 0 <= i < |jobs| ==> jobs[i].status == status
    ensures Count(jobs, status) > 0 <==> exists i :: 0 <= i < |jobs| && jobs[i].status == status
    decreases |jobs|
  {
    if jobs != [] {
      var n := |jobs| - 1;
      CountExtremes(jobs[..n], status);
      assert forall i :: 0 <= i < n ==> jobs[..n][i] == jobs[i];
      if exists i :: 0 <= i < |jobs| && jobs[i].status == status {
        var i :| 0 <= i < |jobs| && jobs[i].status == status;
        if i < n { assert jobs[..n][i].status == status; }
      }
    }
  }

  // ---------------------------------------------------------------- the status rule

  ghost predicate AllDelivered(jobs: seq<Job>) { forall i :: 0 <= i < |jobs| ==> jobs[i].status.Succeeded? }

  ghost predicate SomeDelivered(jobs: seq<Job>) { exists i :: 0 <= i < |jobs| && jobs[i].status.Succeeded? }

  ghost predicate RequiredDelivered(jobs: seq<Job>) {
    forall i :: 0 <= i < |jobs| && jobs[i].spec.required ==> jobs[i].status.Succeeded?
  }

  /** The status a finished batch must have, said without counters. */
  ghost function RightStatus(batch: Batch, jobs: seq<Job>): BatchStatus {
    if batch.cancelRequested then
      if AllDelivered(jobs) then BatchCompleted else if SomeDelivered(jobs) then BatchPartialFailed else BatchCancelled
    else match batch.policy
      case AllRequired => if RequiredDelivered(jobs) then BatchCompleted else BatchFailed
      case AllowPartial =>
        if AllDelivered(jobs) then BatchCompleted else if SomeDelivered(jobs) then BatchPartialFailed else BatchFailed
      case MinSuccess(minimum) =>
        if |Positions(jobs, Succeeded)| >= (if minimum <= 0 then 1 else minimum) then BatchCompleted else BatchFailed
  }

  lemma EndStatusIsRight(batch: Batch, jobs: seq<Job>)
    ensures EndStatus(batch, jobs) == RightStatus(batch, jobs)
  {
    CountIsCardinality(jobs, Succeeded);
    CountExtremes(jobs, Succeeded);
    assert RequiredDelivered(jobs) <==> forall j :: j in jobs && j.spec.required ==> j.status.Succeeded?;
  }

  // ---------------------------------------------------------------- the barrier call

  /** What a barrier call that ends a batch leaves behind. */
  ghost predicate EndsRightly(s: Store, s': Store, b: Id)
    requires b in s.batches && Linked(s, b)
  {
    var jobs := JobsOf(s, b);
    && b in s'.batches && s'.jobs == s.jobs
    && AllTerminal(jobs) && AllSettled(jobs)
    && (var t := s'.batches[b].tally;
        && t.succeeded == |Positions(jobs, Succeeded)| && t.failed == |Positions(jobs, Failed)| && t.cancelled == |Positions(jobs, Cancelled)|
        && t.succeeded + t.failed + t.cancelled == |jobs|
        && t.required == |RequiredPositions(jobs)| && t.required + t.optional == |jobs|)
    && s'.batches[b].status == RightStatus(s.batches[b], jobs)
    && s'.batches[b].cost == CostOf(jobs)
  }

  lemma RecountIsRight(jobs: seq<Job>)
    requires AllTerminal(jobs)
    ensures var t := Recount(jobs);
            && t.succeeded == |Positions(jobs, Succeeded)| && t.failed == |Positions(jobs, Failed)| && t.cancelled == |Positions(jobs, Cancelled)|
            && t.succeeded + t.failed + t.cancelled == |jobs|
            && t.required == |RequiredPositions(jobs)| && t.required + t.optional == |jobs|
  {
    CountIsCardinality(jobs, Succeeded);
    CountIsCardinality(jobs, Failed);
    CountIsCardinality(jobs, Cancelled);
    RequiredIsCardinality(jobs);
    CountersPartition(jobs);
  }

  lemma BarrierChangeEnds(o: Operation, batch: Batch, jobs: seq<Job>, now: int)
    requires !TerminalBatch(batch.status)
    ensures var after := StampBatch(batch, BarrierChange(o, batch, jobs).batch, now);
            var ready := AllTerminal(jobs) && AllSettled(jobs);
            && (TerminalBatch(after.status) <==> ready)
            && (ready ==> after.status == EndStatus(batch, jobs) && after.tally == Recount(jobs) && after.cost == CostOf(jobs))
  {
  }

  lemma FinalizedBatch(s: Store, b: Id, now: int)
    requires Linked(s, b) && !TerminalBatch(s.batches[b].status)
    ensures var batch' := Finalized(s, b, now).batches[b];
            && (TerminalBatch(batch'.status) <==> Ready(s, b))
            && (Ready(s, b) ==> batch'.status == EndStatus(s.batches[b], JobsOf(s, b)) && batch'.tally == Recount(JobsOf(s, b)) && batch'.cost == CostOf(JobsOf(s, b)))
  {
    BarrierChangeEnds(s.operations[s.batches[b].operation], s.batches[b], JobsOf(s, b), now);
  }

  /** In every sound state the barrier is never refused; it ends an open batch exactly when nothing holds it back. */
  lemma BarrierEndsRightly(s: Store, b: Id, now: int)
    requires StoreInv(s) && b in s.batches
    ensures Linked(s, b) && TryFinalize(s, b, now).Ok? && b in TryFinalize(s, b, now).value.batches
    ensures !TerminalBatch(s.batches[b].status) ==>
      && (TerminalBatch(TryFinalize(s, b, now).value.batches[b].status) <==> AllTerminal(JobsOf(s, b)) && AllSettled(JobsOf(s, b)))
      && (TerminalBatch(TryFinalize(s, b, now).value.batches[b].status) ==> EndsRightly(s, TryFinalize(s, b, now).value, b))
  {
    BarrierIs(s, b, now);
    if !TerminalBatch(s.batches[b].status) {
      FinalizedBatch(s, b, now);
      if Ready(s, b) {
        RecountIsRight(JobsOf(s, b));
        EndStatusIsRight(s.batches[b], JobsOf(s, b));
        FinalizedSparesJobs(s, b, now);
      }
    }
  }

  // ---------------------------------------------------------------- runs

  lemma CancelEndsNothing(s: Store, x: Id, now: int, b: Id)
    requires CancelOutcome(s, x, now) && b in s.batches && !TerminalBatch(s.batches[b].status)
    ensures b in Do(s, Cancel(x, now)).batches && !TerminalBatch(Do(s, Cancel(x, now)).batches[b].status)
  {
  }

  lemma CreateEndsNothing(s: Store, c: CreateCommand, now: int, b: Id)
    requires b in s.batches && !TerminalBatch(s.batches[b].status)
    ensures b in Do(s, Create(c, now)).batches && !TerminalBatch(Do(s, Create(c, now)).batches[b].status)
  {
  }

  lemma OtherBarrier(s: Store, x: Id, now: int, b: Id)
    requires x in s.batches ==> Linked(s, x) && TryFinalize(s, x, now) == Ok(Finalized(s, x, now))
    requires b in s.batches && x != b
    ensures b in Do(s, Barrier(x, now)).batches && Do(s, Barrier(x, now)).batches[b] == s.batches[b]
  {
  }

  lemma MutateEndsNothing(s: Store, job: Id, expected: int, m: Mutation, now: int, b: Id)
    requires b in s.batches
    ensures b in Do(s, Mutate(job, expected, m, now)).batches && Do(s, Mutate(job, expected, m, now)).batches[b] == s.batches[b]
  {
    if MutateJob(s, job, expected, m, now).Ok? { var job', events := MutateEffect(s, job, expected, m, now); }
  }

  /** Only the barrier ends a batch. */
  lemma OnlyBarrierEnds(s: Store, op: StoreOp, b: Id)
    requires StoreInv(s) && b in s.batches && !TerminalBatch(s.batches[b].status)
    requires b in Do(s, op).batches && TerminalBatch(Do(s, op).batches[b].status)
    ensures op.Barrier? && op.batch == b
  {
    match op {
      case Create(c, now) => CreateEndsNothing(s, c, now, b);
      case Mutate(job, expected, m, now) => MutateEndsNothing(s, job, expected, m, now, b);
      case Cancel(x, now) => CancelIs(s, x, now); CancelEndsNothing(s, x, now, b);
      case Barrier(x, now) => if x != b { if x in s.batches { BarrierIs(s, x, now); } OtherBarrier(s, x, now, b); }
      case _ =>
    }
  }

  lemma DoBarrier(s: Store, b: Id, now: int)
    requires TryFinalize(s, b, now).Ok?
    ensures Do(s, Barrier(b, now)) == TryFinalize(s, b, now).value
  {
    DoBarrierIs(s, b, now);
  }

  lemma BarrierOpEnds(s: Store, b: Id, now: int)
    requires StoreInv(s) && b in s.batches && !TerminalBatch(s.batches[b].status)
    requires b in Do(s, Barrier(b, now)).batches && TerminalBatch(Do(s, Barrier(b, now)).batches[b].status)
    ensures Linked(s, b) && EndsRightly(s, Do(s, Barrier(b, now)), b)
  {
    BarrierEndsRightly(s, b, now);
    DoBarrier(s, b, now);
  }

  lemma OpsEndRightly(s: Store, op: StoreOp, b: Id)
    requires StoreInv(s) && b in s.batches && !TerminalBatch(s.batches[b].status)
    requires b in Do(s, op).batches && TerminalBatch(Do(s, op).batches[b].status)
    ensures Linked(s, b) && EndsRightly(s, Do(s, op), b)
  {
    OnlyBarrierEnds(s, op, b);
    BarrierOpEnds(s, b, op.now);
  }

  /** Whichever step of whichever run ends a batch, it ends it rightly. */
  lemma BatchesEndRightly(labels: seq<Label>, l: Label, b: Id)
    requires b in Run(labels).store.batches && !TerminalBatch(Run(labels).store.batches[b].status)
    requires b in Step(Run(labels), l).store.batches && TerminalBatch(Step(Run(labels), l).store.batches[b].status)
    ensures Linked(Run(labels).store, b) && EndsRightly(Run(labels).store, Step(Run(labels), l).store, b)
  {
    RunCoherent(labels);
    StepDoes(Run(labels), l);
    OpsEndRightly(Run(labels).store, OpOf(Run(labels), l), b);
  }

  /** In no reachable state does the transition table refuse the barrier, whoever calls it. */
  lemma BarrierNeverRefused(labels: seq<Label>, b: Id, now: int)
    requires b in Run(labels).store.batches
    ensures TryFinalize(Run(labels).store, b, now).Ok?
  {
    RunCoherent(labels);
    BarrierEndsRightly(Run(labels).store, b, now);
  }
}
