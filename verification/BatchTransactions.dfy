/** The two transactions that span a whole batch: the barrier and the cancel command. */
module BatchTransactions {
  import opened Basics
  import opened GenerationModels
  import opened JobMutations
  import opened WorkflowStore
  import opened BatchCost

  /** What a batch transaction hands back to the store. */
  datatype BatchChange = BatchChange(operation: Operation, batch: Batch, jobs: seq<Job>, events: seq<Event>)

  // ---------------------------------------------------------------- barrier

  function Count(jobs: seq<Job>, status: JobStatus): int {
    if jobs == [] then 0
    else Count(jobs[..|jobs| - 1], status) + (if jobs[|jobs| - 1].status == status then 1 else 0)
  }

  /** `recountBatch` */
  function Recount(jobs: seq<Job>): Tally {
    Tally(CountRequired(jobs), |jobs| - CountRequired(jobs),
          Count(jobs, Succeeded), Count(jobs, Failed), Count(jobs, Cancelled))
  }

  predicate AllTerminal(jobs: seq<Job>) { forall j :: j in jobs ==> Terminal(j) }

  predicate AllSettled(jobs: seq<Job>) { forall j :: j in jobs ==> !Unsettled(j) }

  /** `evaluateCompletionPolicy` */
  function PolicyStatus(policy: CompletionPolicy, tally: Tally, jobs: seq<Job>): BatchStatus {
    match policy
    case AllowPartial =>
      if tally.succeeded == |jobs| then BatchCompleted
      else if tally.succeeded > 0 then BatchPartialFailed else BatchFailed
    case MinSuccess(minimum) =>
      if tally.succeeded >= (if minimum <= 0 then 1 else minimum) then BatchCompleted else BatchFailed
    case AllRequired =>
      if exists j :: j in jobs && j.spec.required && !j.status.Succeeded? then BatchFailed else BatchCompleted
  }

  /** A cancelled batch that delivered everything is complete; delivered work is never called cancelled. */
  function CancelStatus(tally: Tally, jobs: seq<Job>): BatchStatus {
    if tally.succeeded == |jobs| then BatchCompleted
    else if tally.succeeded > 0 then BatchPartialFailed else BatchCancelled
  }

  function EndStatus(batch: Batch, jobs: seq<Job>): BatchStatus {
    if batch.cancelRequested then CancelStatus(Recount(jobs), jobs) else PolicyStatus(batch.policy, Recount(jobs), jobs)
  }

  function OperationStatusFor(s: BatchStatus): OperationStatus {
    match s
    case BatchCompleted => OpCompleted
    case BatchPartialFailed => OpPartialFailed
    case BatchCancelled => OpCancelled
    case _ => OpFailed
  }

  function ResultOf(j: Job): JobResult {
    JobResult(j.spec.id, j.status, j.disposition, j.assets, j.fault.code,
              j.money.charged, j.money.compensated, j.money.charged - j.money.compensated)
  }

  function ResultsOf(jobs: seq<Job>): seq<JobResult> {
    seq(|jobs|, i requires 0 <= i < |jobs| => ResultOf(jobs[i]))
  }

  function EndingOf(operation: Operation, batch: Batch, jobs: seq<Job>): Ending {
    Ending(batch.id, operation.id, batch.version + 1, batch.status, batch.cost, ResultsOf(jobs))
  }

  function BatchEvent(key: OutboxKey, kind: EventKind, batch: Id, ending: Option<Ending>): Event {
    Event(key, kind, SessionSignals, "", batch, None, ending)
  }

  /** The transaction of `TryFinalize`. */
  function BarrierChange(operation: Operation, batch: Batch, jobs: seq<Job>): BatchChange {
    if TerminalBatch(batch.status) then BatchChange(operation, batch, jobs, [])
    else
      var counted := batch.(tally := Recount(jobs));
      if !AllTerminal(jobs) then
        BatchChange(operation, if batch.cancelRequested then counted.(status := BatchCancelling) else counted, jobs, [])
      else if !AllSettled(jobs) then
        BatchChange(operation, counted.(status := if batch.cancelRequested then BatchCancelling else BatchFinalizing), jobs, [])
      else
        var ended := counted.(cost := CostOf(jobs), status := EndStatus(batch, jobs));
        var ending := EndingOf(operation, ended, jobs);
        BatchChange(operation.(status := OperationStatusFor(ended.status), result := Some(ending)), ended, jobs,
                    [BatchEvent(BatchEnded(batch.id), GenerationModels.BatchEvent, batch.id, Some(ending))])
  }

  // ---------------------------------------------------------------- cancel

  /** Queued work without a provider task is cancelled on the spot; the rest only gets the flag. */
  function CancelledJob(j: Job): Job {
    if Terminal(j) then j
    else
      var flagged := j.(cancelRequested := true);
      if j.status.Queued? && j.task == "" then flagged.(status := Cancelled, fault := j.fault.(code := "cancelled_by_user"))
      else flagged
  }

  function CancelledJobs(jobs: seq<Job>): (r: seq<Job>)
    ensures |r| == |jobs| && forall i :: 0 <= i < |jobs| ==> r[i] == CancelledJob(jobs[i])
  {
    seq(|jobs|, i requires 0 <= i < |jobs| => CancelledJob(jobs[i]))
  }

  function CancelNotice(j: Job): Event {
    Event(JobCancelRequested(j.spec.id), JobEvent, MediaJobs, j.spec.id, j.spec.batch, None, None)
  }

  function CancelNotices(jobs: seq<Job>): (es: seq<Event>)
    ensures forall e :: e in es ==> exists j :: j in jobs && !Terminal(j) && e == CancelNotice(j)
  {
    if jobs == [] then []
    else CancelNotices(jobs[..|jobs| - 1]) + (if Terminal(jobs[|jobs| - 1]) then [] else [CancelNotice(jobs[|jobs| - 1])])
  }

  /** The transaction of `CancelBatch`. */
  function CancelChange(operation: Operation, batch: Batch, jobs: seq<Job>): BatchChange {
    if TerminalBatch(batch.status) || batch.cancelRequested then BatchChange(operation, batch, jobs, [])
    else
      BatchChange(operation, batch.(cancelRequested := true, status := BatchCancelling), CancelledJobs(jobs),
                  [BatchEvent(OperationCancelRequested(operation.id), OperationEvent, batch.id, None)]
                  + CancelNotices(jobs)
                  + [BatchEvent(CancelWake(batch.id), FinalizeRequested, batch.id, None)])
  }

  // ---------------------------------------------------------------- commit

  /** A lifecycle event for one of the jobs the transaction changed. */
  ghost predicate LifecycleOf(e: Event, before: seq<Job>, after: seq<Job>)
    requires |before| == |after|
  {
    exists i :: 0 <= i < |after| && before[i] != after[i] && e == JobEventFor(JobLifecycle(after[i].spec.id, after[i].version + 1), after[i])
  }

  function EnsureAll(events: seq<Event>, before: seq<Job>, after: seq<Job>): seq<Event>
    requires |before| == |after|
    decreases |after|
  {
    if after == [] then events
    else
      var n := |after| - 1;
      EnsureLifecycle(EnsureAll(events, before[..n], after[..n]), before[n], after[n], false)
  }

  lemma {:induction false} EnsureAllAdds(events: seq<Event>, before: seq<Job>, after: seq<Job>)
    requires |before| == |after|
    ensures forall e :: e in events ==> e in EnsureAll(events, before, after)
    ensures forall e :: e in EnsureAll(events, before, after) ==> e in events || LifecycleOf(e, before, after)
    decreases |after|
  {
    if after != [] {
      var n := |after| - 1;
      EnsureAllAdds(events, before[..n], after[..n]);
      forall e | e in EnsureAll(events, before, after) && e !in events ensures LifecycleOf(e, before, after) {
        if e in EnsureAll(events, before[..n], after[..n]) {
          var i :| 0 <= i < n && before[..n][i] != after[..n][i]
            && e == JobEventFor(JobLifecycle(after[..n][i].spec.id, after[..n][i].version + 1), after[..n][i]);
          assert before[i] != after[i] && e == JobEventFor(JobLifecycle(after[i].spec.id, after[i].version + 1), after[i]);
        }
      }
    }
  }

  function StampBatch(before: Batch, after: Batch, now: int): Batch {
    if before == after then after
    else after.(version := after.version + 1,
                terminalAt := if TerminalBatch(after.status) && after.terminalAt.None? then Some(now) else after.terminalAt)
  }

  function StampOperation(before: Operation, after: Operation, now: int): Operation {
    if before == after then after
    else after.(version := after.version + 1,
                terminalAt := if TerminalOperation(after.status) && after.terminalAt.None? then Some(now) else after.terminalAt)
  }

  function StampBatchJob(before: Job, after: Job, now: int): Job {
    if before == after then after
    else after.(version := after.version + 1, updatedAt := now,
                terminalAt := if Terminal(after) && after.terminalAt.None? then Some(now) else after.terminalAt)
  }

  function StampBatchJobs(before: seq<Job>, after: seq<Job>, now: int): (r: seq<Job>)
    requires |before| == |after|
    ensures |r| == |after| && forall i :: 0 <= i < |r| ==> r[i] == StampBatchJob(before[i], after[i], now)
  {
    seq(|after|, i requires 0 <= i < |after| => StampBatchJob(before[i], after[i], now))
  }

  predicate Allowed(operation: Operation, batch: Batch, jobs: seq<Job>, c: BatchChange) {
    && (batch.status == c.batch.status || BatchTransition(batch.status, c.batch.status))
    && (operation.status == c.operation.status || OperationTransition(operation.status, c.operation.status))
    && |jobs| == |c.jobs|
    && forall i :: 0 <= i < |jobs| ==> jobs[i].status == c.jobs[i].status || JobTransition(jobs[i].status, c.jobs[i].status)
  }

  predicate Linked(s: Store, batch: Id) {
    && batch in s.batches && s.batches[batch].operation in s.operations && batch in s.jobIds
    && forall i :: 0 <= i < |s.jobIds[batch]| ==> s.jobIds[batch][i] in s.jobs
  }

  function JobsOf(s: Store, batch: Id): (js: seq<Job>)
    requires Linked(s, batch)
    ensures |js| == |s.jobIds[batch]| && forall i :: 0 <= i < |js| ==> js[i] == s.jobs[s.jobIds[batch][i]]
  {
    var ids := s.jobIds[batch];
    seq(|ids|, i requires 0 <= i < |ids| => s.jobs[ids[i]])
  }

  /** The store with the records of one batch replaced and the events appended. */
  function Changed(s: Store, batch: Id, c: BatchChange, events: seq<Event>, jobs: seq<Job>, now: int): Store
    requires batch in s.batches && s.batches[batch].operation in s.operations
  {
    var b := s.batches[batch];
    s.(operations := s.operations[b.operation := StampOperation(s.operations[b.operation], c.operation, now)],
       batches := s.batches[batch := StampBatch(b, c.batch, now)],
       jobs := PutJobs(s.jobs, jobs),
       outbox := AppendAll(s.outbox, events, now))
  }

  /** The tail of `TransactBatch`: transition checks, version stamps, outbox, write-back. */
  function CommitChange(s: Store, batch: Id, c: BatchChange, now: int): Result<Store, Error>
    requires Linked(s, batch)
  {
    var b, jobs := s.batches[batch], JobsOf(s, batch);
    if !Allowed(s.operations[b.operation], b, jobs, c) then Err(InvalidTransition)
    else Ok(Changed(s, batch, c, EnsureAll(c.events, jobs, c.jobs), StampBatchJobs(jobs, c.jobs, now), now))
  }

  function TryFinalize(s: Store, batch: Id, now: int): Result<Store, Error> {
    if !Linked(s, batch) then Err(NotFound)
    else CommitChange(s, batch, BarrierChange(s.operations[s.batches[batch].operation], s.batches[batch], JobsOf(s, batch)), now)
  }

  function CancelBatch(s: Store, batch: Id, now: int): Result<Store, Error> {
    if !Linked(s, batch) then Err(NotFound)
    else CommitChange(s, batch, CancelChange(s.operations[s.batches[batch].operation], s.batches[batch], JobsOf(s, batch)), now)
  }
}
