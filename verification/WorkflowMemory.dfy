/**
 The in-memory workflow store: records and outbox in maps that are updated in place, events under generated ids,
 and the outbox maps put back when a batch of events cannot be appended. Every method computes exactly
 what its counterpart on values does, or leaves everything as it was.
 */
module WorkflowMemory {
  import opened Basics
  import opened GenerationModels
  import opened JobMutations
  import opened WorkflowStore
  import opened BatchTransactions
  import opened BatchCost

  type EventId = string

  /** The id generator, call by call. */
  type NewId = nat -> EventId

  /** The ids it hands out are new. */
  ghost predicate FreshIds(outbox: map<EventId, Row>, newId: NewId) {
    && (forall i :: newId(i) !in outbox)
    && (forall i, k :: i < k ==> newId(i) != newId(k))
  }

  /** Every event id is an original one or one of the first `n` generated. */
  ghost predicate IdsFrom(outbox: map<EventId, Row>, original: map<EventId, Row>, newId: NewId, n: nat) {
    forall x :: x in outbox ==> x in original || exists k: nat :: k < n && newId(k) == x
  }

  lemma StillFresh(outbox: map<EventId, Row>, original: map<EventId, Row>, newId: NewId, n: nat)
    requires IdsFrom(outbox, original, newId, n)
    ensures FreshIds(original, newId) ==> newId(n) !in outbox
  {
  }

  /** Event ids and producer keys are in one-to-one correspondence. */
  ghost predicate Paired(outbox: map<EventId, Row>, keys: map<OutboxKey, EventId>) {
    && (forall k :: k in keys ==> keys[k] in outbox && outbox[keys[k]].event.key == k)
    && (forall id :: id in outbox ==> outbox[id].event.key in keys && keys[outbox[id].event.key] == id)
  }

  ghost function ByKey(outbox: map<EventId, Row>, keys: map<OutboxKey, EventId>): Outbox
    requires Paired(outbox, keys)
  {
    map k | k in keys :: outbox[keys[k]]
  }

  /** Rows keep their ids and contents while others are added. */
  ghost predicate Extends(before: map<EventId, Row>, after: map<EventId, Row>) {
    forall id :: id in before ==> id in after && after[id] == before[id]
  }

  /** Every row is still there with its event. */
  ghost predicate SameEvents(before: map<EventId, Row>, after: map<EventId, Row>) {
    forall id :: id in before ==> id in after && after[id].event == before[id].event
  }

  /** Rewriting one row in place is rewriting the row of its key. */
  lemma RowRewritten(outbox: map<EventId, Row>, keys: map<OutboxKey, EventId>, id: EventId, row: Row)
    requires Paired(outbox, keys) && id in outbox && row.event == outbox[id].event
    ensures Paired(outbox[id := row], keys)
    ensures ByKey(outbox[id := row], keys) == ByKey(outbox, keys)[row.event.key := row]
  {
  }

  // ---------------------------------------------------------------- the closures of batch transactions

  /** `recountBatch` */
  method RecountBatch(jobs: seq<Job>) returns (t: Tally)
    ensures t == Recount(jobs)
  {
    t := Tally(0, 0, 0, 0, 0);
    for i := 0 to |jobs|
      invariant t == Recount(jobs[..i])
    {
      assert jobs[..i + 1][..i] == jobs[..i];
      if jobs[i].spec.required { t := t.(required := t.required + 1); } else { t := t.(optional := t.optional + 1); }
      match jobs[i].status {
        case Succeeded => t := t.(succeeded := t.succeeded + 1);
        case Failed => t := t.(failed := t.failed + 1);
        case Cancelled => t := t.(cancelled := t.cancelled + 1);
        case _ =>
      }
    }
    assert jobs[..|jobs|] == jobs;
  }

  /** `evaluateCompletionPolicy` */
  method EvaluateCompletionPolicy(policy: CompletionPolicy, tally: Tally, jobs: seq<Job>) returns (status: BatchStatus)
    ensures status == PolicyStatus(policy, tally, jobs)
  {
    match policy {
      case AllowPartial =>
        if tally.succeeded == |jobs| { return BatchCompleted; }
        if tally.succeeded > 0 { return BatchPartialFailed; }
        return BatchFailed;
      case MinSuccess(n) =>
        var minimum := n;
        if minimum <= 0 { minimum := 1; }
        if tally.succeeded >= minimum { return BatchCompleted; }
        return BatchFailed;
      case AllRequired =>
        for i := 0 to |jobs|
          invariant forall k :: 0 <= k < i ==> !(jobs[k].spec.required && !jobs[k].status.Succeeded?)
        {
          if jobs[i].spec.required && !jobs[i].status.Succeeded? { return BatchFailed; }
        }
        return BatchCompleted;
    }
  }

  method TerminalResults(jobs: seq<Job>) returns (items: seq<JobResult>)
    ensures items == ResultsOf(jobs)
  {
    items := [];
    for i := 0 to |jobs|
      invariant items == ResultsOf(jobs[..i])
    {
      items := items + [ResultOf(jobs[i])];
    }
    assert jobs[..|jobs|] == jobs;
  }

  /** The closure of `TryFinalize`, with its two passes over the jobs. */
  method BarrierTransaction(operation: Operation, batch: Batch, jobs: seq<Job>) returns (c: BatchChange)
    ensures c == BarrierChange(operation, batch, jobs)
  {
    if TerminalBatch(batch.status) { return BatchChange(operation, batch, jobs, []); }
    var tally := RecountBatch(jobs);
    var counted := batch.(tally := tally);
    for i := 0 to |jobs|
      invariant forall k :: 0 <= k < i ==> Terminal(jobs[k])
    {
      if !Terminal(jobs[i]) {
        if batch.cancelRequested { counted := counted.(status := BatchCancelling); }
        assert jobs[i] in jobs;
        return BatchChange(operation, counted, jobs, []);
      }
    }
    for i := 0 to |jobs|
      invariant forall k :: 0 <= k < i ==> !Unsettled(jobs[k])
    {
      if jobs[i].money.txn.Some? && (jobs[i].comp.CompPending? || jobs[i].comp.CompRunning? || jobs[i].comp.CompRetryWait?) {
        counted := counted.(status := if batch.cancelRequested then BatchCancelling else BatchFinalizing);
        assert jobs[i] in jobs;
        return BatchChange(operation, counted, jobs, []);
      }
    }
    var cost := AggregateCost(jobs);
    var status;
    if batch.cancelRequested {
      if tally.succeeded == |jobs| { status := BatchCompleted; }
      else if tally.succeeded > 0 { status := BatchPartialFailed; }
      else { status := BatchCancelled; }
    } else {
      status := EvaluateCompletionPolicy(batch.policy, tally, jobs);
    }
    var items := TerminalResults(jobs);
    var ending := Ending(batch.id, operation.id, batch.version + 1, status, cost, items);
    return BatchChange(operation.(status := OperationStatusFor(status), result := Some(ending)),
                       counted.(cost := cost, status := status), jobs,
                       [BatchTransactions.BatchEvent(BatchEnded(batch.id), GenerationModels.BatchEvent, batch.id, Some(ending))]);
  }

  /** The closure of `CancelBatch`: flag every open job, cancel the queued ones, and collect their notices. */
  method CancelTransaction(operation: Operation, batch: Batch, jobs: seq<Job>) returns (c: BatchChange)
    ensures c == CancelChange(operation, batch, jobs)
  {
    if TerminalBatch(batch.status) { return BatchChange(operation, batch, jobs, []); }
    if batch.cancelRequested { return BatchChange(operation, batch, jobs, []); }
    var first := BatchTransactions.BatchEvent(OperationCancelRequested(operation.id), OperationEvent, batch.id, None);
    var events, after := [first], [];
    for i := 0 to |jobs|
      invariant events == [first] + CancelNotices(jobs[..i])
      invariant after == CancelledJobs(jobs[..i])
    {
      assert jobs[..i + 1][..i] == jobs[..i];
      var job := jobs[i];
      if !Terminal(job) {
        events := events + [CancelNotice(job)];
        job := job.(cancelRequested := true);
        if job.status.Queued? && job.task == "" {
          job := job.(status := Cancelled, fault := job.fault.(code := "cancelled_by_user"));
        }
      }
      after := after + [job];
    }
    assert jobs[..|jobs|] == jobs;
    events := events + [BatchTransactions.BatchEvent(CancelWake(batch.id), FinalizeRequested, batch.id, None)];
    return BatchChange(operation, batch.(cancelRequested := true, status := BatchCancelling), after, events);
  }

  class MemoryStore {
    var operations: map<Id, Operation>
    var operationByKey: map<string, Id>
    var batches: map<Id, Batch>
    var jobs: map<Id, Job>
    var jobIds: map<Id, seq<Id>>
    var outbox: map<EventId, Row>
    var outboxByKey: map<OutboxKey, EventId>

    ghost predicate Valid()
      reads this
    {
      Paired(outbox, outboxByKey)
    }

    /** The outbox by producer key, as callers know it. */
    ghost function Rows(): Outbox
      requires Valid()
      reads this
    {
      ByKey(outbox, outboxByKey)
    }

    ghost function View(): Store
      requires Valid()
      reads this
    {
      Store(operations, operationByKey, batches, jobs, jobIds, Rows())
    }

    constructor ()
      ensures Valid() && View() == EMPTY
    {
      operations, operationByKey, batches, jobs, jobIds, outbox, outboxByKey := map[], map[], map[], map[], map[], map[], map[];
    }

    // -------------------------------------------------------------- outbox

    /** `appendOutboxLocked` */
    method AppendEvent(e: Event, id: EventId, now: int) returns (ok: bool)
      requires Valid()
      modifies this`outbox, this`outboxByKey
      ensures Valid()
      ensures ok ==> Rows() == Append(old(Rows()), e, now)
      ensures !ok <==> e.key !in old(outboxByKey) && id in old(outbox)
      ensures !ok ==> outbox == old(outbox) && outboxByKey == old(outboxByKey)
      ensures forall x :: x in outbox ==> x in old(outbox) || x == id
      ensures Extends(old(outbox), outbox)
    {
      if e.key in outboxByKey { return true; }
      if id in outbox { return false; }
      outbox := outbox[id := Row(e, RowPending, 0, if e.availableAt.Some? then e.availableAt.value else now)];
      outboxByKey := outboxByKey[e.key := id];
      assert Rows() == Append(old(Rows()), e, now);
      return true;
    }

    /** `appendOutboxBatchLocked`: all events or, when a generated id is taken, none. */
    method AppendEvents(events: seq<Event>, newId: NewId, now: int) returns (ok: bool)
      requires Valid()
      modifies this`outbox, this`outboxByKey
      ensures Valid()
      ensures ok ==> Rows() == AppendAll(old(Rows()), events, now)
      ensures !ok ==> outbox == old(outbox) && outboxByKey == old(outboxByKey)
      ensures FreshIds(old(outbox), newId) ==> ok
      ensures Extends(old(outbox), outbox)
    {
      var originalOutbox, originalKeys := outbox, outboxByKey;
      for i := 0 to |events|
        invariant Valid()
        invariant AppendAll(Rows(), events[i..], now) == AppendAll(old(Rows()), events, now)
        invariant IdsFrom(outbox, originalOutbox, newId, i) && Extends(originalOutbox, outbox)
      {
        assert events[i..][0] == events[i] && events[i..][1..] == events[i + 1..];
        StillFresh(outbox, originalOutbox, newId, i);
        var done := AppendEvent(events[i], newId(i), now);
        if !done {
          outbox, outboxByKey := originalOutbox, originalKeys;
          return false;
        }
      }
      return true;
    }

    method MarkOutboxPublished(id: EventId) returns (result: Result<(), Error>)
      requires Valid()
      modifies this`outbox
      ensures Valid()
      ensures id !in old(outbox) ==> result == Err(NotFound) && outbox == old(outbox)
      ensures id in old(outbox) ==> result.Ok? && Ok(View()) == MarkPublished(old(View()), old(outbox)[id].event.key)
      ensures SameEvents(old(outbox), outbox)
    {
      if id !in outbox { return Err(NotFound); }
      var row := outbox[id];
      if row.status.RowPublished? {
        assert old(Rows())[row.event.key := row] == old(Rows());
        return Ok(());
      }
      RowRewritten(outbox, outboxByKey, id, row.(status := RowPublished));
      outbox := outbox[id := row.(status := RowPublished)];
      return Ok(());
    }

    method MarkOutboxFailed(id: EventId, at: int, maxAttempts: int) returns (result: Result<(), Error>)
      requires Valid()
      modifies this`outbox
      ensures Valid()
      ensures id !in old(outbox) ==> result == Err(NotFound) && outbox == old(outbox)
      ensures id in old(outbox) ==> result.Ok? && Ok(View()) == MarkFailed(old(View()), old(outbox)[id].event.key, at, maxAttempts)
      ensures SameEvents(old(outbox), outbox)
    {
      if id !in outbox { return Err(NotFound); }
      var row := outbox[id];
      if !row.status.RowPending? { return Ok(()); }
      var attempts := row.attempts + 1;
      if maxAttempts > 0 && attempts >= maxAttempts {
        row := row.(attempts := attempts, status := RowDead);
      } else {
        row := row.(attempts := attempts, availableAt := at + RetryBackoff(attempts));
      }
      RowRewritten(outbox, outboxByKey, id, row);
      outbox := outbox[id := row];
      return Ok(());
    }

    // -------------------------------------------------------------- jobs

    method RenewJobLease(id: Id, owner: string, until: int, now: int) returns (result: Result<(), Error>)
      requires Valid()
      modifies this`jobs
      ensures Valid()
      ensures var spec := WorkflowStore.RenewJobLease(old(View()), id, owner, until, now);
              && (spec.Ok? ==> result.Ok? && View() == spec.value)
              && (spec.Err? ==> result == Err(spec.error) && View() == old(View()))
    {
      if id !in jobs { return Err(NotFound); }
      var job := jobs[id];
      if job.lease.owner != owner || (!job.status.Running? && !job.status.Finalizing?) { return Err(VersionConflict); }
      job := job.(lease := job.lease.(until := Some(until)), updatedAt := now);
      jobs := jobs[id := job];
      return Ok(());
    }

    /** `MutateJob`: compare, mutate a copy, check the transition, stamp, append the events, and only then store the job. */
    method MutateJob(id: Id, expected: int, m: Mutation, now: int, newId: NewId) returns (result: Result<Job, Error>)
      requires Valid()
      modifies this`jobs, this`outbox, this`outboxByKey
      ensures Valid()
      ensures var spec := WorkflowStore.MutateJob(old(View()), id, expected, m, now);
              if result.Ok? then spec == Ok((View(), result.value))
              else View() == old(View()) && outbox == old(outbox) && (spec == Err(result.error) || !FreshIds(old(outbox), newId))
    {
      if id !in jobs { return Err(NotFound); }
      var before := jobs[id];
      if expected > 0 && before.version != expected { return Err(VersionConflict); }
      var mutated := Apply(m, before, now);
      if mutated.Err? { return Err(Refused(mutated.error)); }
      var job, events := mutated.value.job, EnsureLifecycle(mutated.value.events, before, mutated.value.job, true);
      if before.status != job.status && !JobTransition(before.status, job.status) { return Err(InvalidTransition); }
      job := StampJob(before, job, now);
      var ok := StoreJob(id, job, events, now, newId);
      if !ok { return Err(Duplicate); }
      return Ok(job);
    }

    /** The end of `MutateJob`: outbox first, then the job. */
    method StoreJob(id: Id, job: Job, events: seq<Event>, now: int, newId: NewId) returns (ok: bool)
      requires Valid()
      modifies this`jobs, this`outbox, this`outboxByKey
      ensures Valid()
      ensures ok ==> View() == old(View().(jobs := jobs[id := job], outbox := AppendAll(Rows(), events, now)))
      ensures !ok ==> View() == old(View()) && outbox == old(outbox) && !FreshIds(old(outbox), newId)
    {
      ok := AppendEvents(events, newId, now);
      if ok { jobs := jobs[id := job]; }
    }

    // -------------------------------------------------------------- creation

    /** `CreateWorkflow`: nothing is stored before the dispatch events are in the outbox. */
    method CreateWorkflow(c: CreateCommand, now: int, newId: NewId) returns (result: Result<bool, Error>)
      requires Valid()
      modifies this
      ensures Valid()
      ensures var spec := WorkflowStore.CreateWorkflow(old(View()), c, now);
              if result.Ok? then spec == Ok((View(), result.value))
              else View() == old(View()) && outbox == old(outbox) && (spec == Err(result.error) || !FreshIds(old(outbox), newId))
    {
      ghost var s0 := View();
      if c.operation == "" || c.session == "" || c.key == "" || c.batch == "" { return Err(InvalidCommand); }
      if c.key in operationByKey {
        var existing := operationByKey[c.key];
        if existing !in operations || operations[existing].fingerprint != c.fingerprint { return Err(IdempotencyConflict); }
        return Ok(false);
      }
      if c.operation in operations { return Err(Duplicate); }
      if c.batch in batches { return Err(Duplicate); }
      if c.jobs == [] { return Err(InvalidCommand); }
      var problem, built, required := BuildJobs(jobs, s0, c, now);
      if problem.Some? { return Err(problem.value); }
      var ok := StoreWorkflow(c, built, required, now, newId);
      if !ok { return Err(Duplicate); }
      return Ok(true);
    }

    /** The end of `CreateWorkflow`: outbox first, then the records. */
    method StoreWorkflow(c: CreateCommand, built: seq<Job>, required: int, now: int, newId: NewId) returns (ok: bool)
      requires Valid() && required == CountRequired(built)
      modifies this
      ensures Valid()
      ensures ok ==> View() == WithWorkflow(old(View()), c, built, now)
      ensures !ok ==> View() == old(View()) && outbox == old(outbox) && !FreshIds(old(outbox), newId)
    {
      var events := DispatchEvents(c, built);
      ok := AppendEvents(events, newId, now);
      if ok { StoreRecords(c, built, required); }
    }

    method StoreRecords(c: CreateCommand, built: seq<Job>, required: int)
      requires Valid() && required == CountRequired(built)
      modifies this`operations, this`operationByKey, this`batches, this`jobs, this`jobIds
      ensures Valid() && View() == WithRecords(old(View()), c, built)
    {
      operations := operations[c.operation := Operation(c.operation, c.batch, c.key, c.fingerprint, OpWaiting, 1, None, None)];
      operationByKey := operationByKey[c.key := c.operation];
      batches := batches[c.batch := Batch(c.batch, c.operation, c.policy, BatchWaiting, false,
                                          Tally(required, |built| - required, 0, 0, 0), NO_COST, 1, None)];
      var written := WriteBack(jobs, built);
      var ids := CollectIds(built);
      jobs := written;
      jobIds := jobIds[c.batch := ids];
    }

    // -------------------------------------------------------------- batches

    method LoadJobs(ids: seq<Id>) returns (loaded: seq<Job>)
      requires forall i :: 0 <= i < |ids| ==> ids[i] in jobs
      ensures |loaded| == |ids| && forall i :: 0 <= i < |ids| ==> loaded[i] == jobs[ids[i]]
    {
      loaded := [];
      for i := 0 to |ids|
        invariant |loaded| == i && forall k :: 0 <= k < i ==> loaded[k] == jobs[ids[k]]
      {
        loaded := loaded + [jobs[ids[i]]];
      }
    }

    /** The tail of `TransactBatch`: lifecycle events, transition checks, stamps, outbox, write-back. */
    method Commit(batchId: Id, c: BatchChange, now: int, newId: NewId) returns (result: Result<(), Error>)
      requires Valid() && Linked(View(), batchId) && |c.jobs| == |jobIds[batchId]|
      modifies this`operations, this`batches, this`jobs, this`outbox, this`outboxByKey
      ensures Valid() && Extends(old(outbox), outbox)
      ensures var spec := CommitChange(old(View()), batchId, c, now);
              if result.Ok? then spec == Ok(View())
              else View() == old(View()) && outbox == old(outbox) && (spec == Err(result.error) || !FreshIds(old(outbox), newId))
    {
      ghost var s0 := View();
      var batch := batches[batchId];
      var operation := operations[batch.operation];
      var before := LoadJobs(jobIds[batchId]);
      assert before == JobsOf(s0, batchId);
      var events := AddLifecycleEvents(c.events, before, c.jobs);
      var allowed := MayMove(operation, batch, before, c);
      if !allowed { return Err(InvalidTransition); }
      var stamped := StampJobs(before, c.jobs, now);
      var ok := StoreChange(batchId, c, events, stamped, now, newId);
      if !ok { return Err(Duplicate); }
      return Ok(());
    }

    /** The end of `TransactBatch`: outbox first, then the records. */
    method StoreChange(batchId: Id, c: BatchChange, events: seq<Event>, stamped: seq<Job>, now: int, newId: NewId) returns (ok: bool)
      requires Valid() && batchId in batches && batches[batchId].operation in operations
      modifies this`operations, this`batches, this`jobs, this`outbox, this`outboxByKey
      ensures Valid()
      ensures Extends(old(outbox), outbox)
      ensures ok ==> View() == Changed(old(View()), batchId, c, events, stamped, now)
      ensures !ok ==> View() == old(View()) && outbox == old(outbox) && !FreshIds(old(outbox), newId)
    {
      var batch := batches[batchId];
      var operation := operations[batch.operation];
      var written := WriteBack(jobs, stamped);
      ok := AppendEvents(events, newId, now);
      if !ok { return false; }
      operations := operations[batch.operation := StampOperation(operation, c.operation, now)];
      batches := batches[batchId := StampBatch(batch, c.batch, now)];
      jobs := written;
    }

    method TryFinalize(batchId: Id, now: int, newId: NewId) returns (result: Result<(), Error>)
      requires Valid() && (batchId in batches ==> Linked(View(), batchId))
      modifies this
      ensures Valid() && Extends(old(outbox), outbox)
      ensures var spec := BatchTransactions.TryFinalize(old(View()), batchId, now);
              if result.Ok? then spec == Ok(View())
              else View() == old(View()) && outbox == old(outbox) && (spec == Err(result.error) || !FreshIds(old(outbox), newId))
    {
      if batchId !in batches { return Err(NotFound); }
      var loaded := LoadJobs(jobIds[batchId]);
      assert loaded == JobsOf(View(), batchId);
      var c := BarrierTransaction(operations[batches[batchId].operation], batches[batchId], loaded);
      result := Commit(batchId, c, now, newId);
    }

    method CancelBatch(batchId: Id, now: int, newId: NewId) returns (result: Result<(), Error>)
      requires Valid() && (batchId in batches ==> Linked(View(), batchId))
      modifies this
      ensures Valid()
      ensures var spec := BatchTransactions.CancelBatch(old(View()), batchId, now);
              if result.Ok? then spec == Ok(View())
              else View() == old(View()) && outbox == old(outbox) && (spec == Err(result.error) || !FreshIds(old(outbox), newId))
    {
      if batchId !in batches { return Err(NotFound); }
      var loaded := LoadJobs(jobIds[batchId]);
      assert loaded == JobsOf(View(), batchId);
      var c := CancelTransaction(operations[batches[batchId].operation], batches[batchId], loaded);
      result := Commit(batchId, c, now, newId);
    }
  }

  // ---------------------------------------------------------------- loops of creation

  /** Whether every job is to count as required: the policy wants all and none is marked. */
  method AllRequiredByDefault(c: CreateCommand) returns (all: bool)
    ensures all <==> DefaultAllRequired(c)
  {
    all := c.policy.AllRequired?;
    for i := 0 to |c.jobs|
      invariant all <==> c.policy.AllRequired? && forall k :: 0 <= k < i ==> !c.jobs[k].required
    {
      if c.jobs[i].required { return false; }
    }
  }

  /** What is wrong with one request, given the ids seen before it and those stored. */
  function RequestProblem(r: JobRequest, seen: set<Id>, stored: map<Id, Job>): Option<Error> {
    if r.id == "" || r.key == "" then Some(InvalidCommand)
    else if r.id in seen || r.id in stored then Some(Duplicate)
    else None
  }

  ghost predicate BuiltFrom(c: CreateCommand, all: bool, jobs: seq<Job>, required: int, now: int) {
    && |jobs| <= |c.jobs| && required == CountRequired(jobs)
    && forall k :: 0 <= k < |jobs| ==> jobs[k] == NewJob(c, all, c.jobs[k], now)
  }

  lemma BuiltNext(c: CreateCommand, all: bool, jobs: seq<Job>, required: int, now: int, job: Job)
    requires BuiltFrom(c, all, jobs, required, now) && |jobs| < |c.jobs| && job == NewJob(c, all, c.jobs[|jobs|], now)
    ensures BuiltFrom(c, all, jobs + [job], required + (if job.spec.required then 1 else 0), now)
  {
    CountNext(jobs, job);
  }

  lemma BuiltAll(c: CreateCommand, jobs: seq<Job>, required: int, now: int)
    requires BuiltFrom(c, DefaultAllRequired(c), jobs, required, now) && |jobs| == |c.jobs|
    ensures jobs == NewJobs(c, now)
  {
  }

  /** The loop of `CreateWorkflow` that validates the job requests and builds the jobs. */
  method BuildJobs(stored: map<Id, Job>, ghost s: Store, c: CreateCommand, now: int) returns (problem: Option<Error>, jobs: seq<Job>, required: int)
    requires stored == s.jobs
    ensures problem == JobsProblem(s, c.jobs)
    ensures problem.None? ==> jobs == NewJobs(c, now) && required == CountRequired(jobs)
  {
    var allRequired := AllRequiredByDefault(c);
    var seen: set<Id> := {};
    jobs, required := [], 0;
    for i := 0 to |c.jobs|
      invariant JobsProblem(s, c.jobs[..i]).None?
      invariant seen == RequestIds(c.jobs[..i])
      invariant |jobs| == i && BuiltFrom(c, allRequired, jobs, required, now)
    {
      NextProblem(s, c.jobs, i);
      problem := RequestProblem(c.jobs[i], seen, stored);
      if problem.Some? {
        ProblemStays(s, c.jobs, i + 1);
        return problem, [], 0;
      }
      seen := seen + {c.jobs[i].id};
      var job := NewJob(c, allRequired, c.jobs[i], now);
      BuiltNext(c, allRequired, jobs, required, now, job);
      if job.spec.required { required := required + 1; }
      jobs := jobs + [job];
    }
    assert c.jobs[..|c.jobs|] == c.jobs;
    BuiltAll(c, jobs, required, now);
    problem := None;
  }

  lemma CountNext(jobs: seq<Job>, job: Job)
    ensures CountRequired(jobs + [job]) == CountRequired(jobs) + (if job.spec.required then 1 else 0)
  {
    assert (jobs + [job])[..|jobs|] == jobs;
  }

  ghost function RequestIds(jobs: seq<JobRequest>): set<Id> { set k | 0 <= k < |jobs| :: jobs[k].id }

  /** What the loop's test on the next request decides. */
  lemma NextProblem(s: Store, jobs: seq<JobRequest>, i: nat)
    requires i < |jobs| && JobsProblem(s, jobs[..i]).None?
    ensures RequestIds(jobs[..i + 1]) == RequestIds(jobs[..i]) + {jobs[i].id}
    ensures JobsProblem(s, jobs[..i + 1]) == RequestProblem(jobs[i], RequestIds(jobs[..i]), s.jobs)
  {
    var next := jobs[..i + 1];
    assert next[..i] == jobs[..i];
    assert forall k :: 0 <= k < i ==> next[k] == jobs[..i][k];
    assert next[i] == jobs[i];
  }

  lemma {:induction false} ProblemStays(s: Store, jobs: seq<JobRequest>, i: nat)
    requires i <= |jobs| && JobsProblem(s, jobs[..i]).Some?
    ensures JobsProblem(s, jobs) == JobsProblem(s, jobs[..i])
    decreases |jobs|
  {
    if i == |jobs| {
      assert jobs[..i] == jobs;
    } else {
      assert jobs[..|jobs| - 1][..i] == jobs[..i];
      ProblemStays(s, jobs[..|jobs| - 1], i);
    }
  }

  method DispatchEvents(c: CreateCommand, jobs: seq<Job>) returns (events: seq<Event>)
    ensures events == CreationEvents(c, jobs)
  {
    events := [Event(OperationAccepted(c.operation), OperationEvent, SessionSignals, "", c.batch, None, None)];
    for i := 0 to |jobs|
      invariant |events| == i + 1 && events[0] == CreationEvents(c, jobs)[0]
      invariant forall k :: 0 < k < |events| ==> events[k] == CreationEvents(c, jobs)[k]
    {
      events := events + [DispatchFor(JobDispatch(jobs[i].spec.id), jobs[i])];
    }
  }

  method CollectIds(jobs: seq<Job>) returns (ids: seq<Id>)
    ensures ids == IdsOf(jobs)
  {
    ids := [];
    for i := 0 to |jobs|
      invariant |ids| == i && forall k :: 0 <= k < i ==> ids[k] == jobs[k].spec.id
    {
      ids := ids + [jobs[i].spec.id];
    }
  }

  // ---------------------------------------------------------------- loops of the transaction

  method AddLifecycleEvents(events: seq<Event>, before: seq<Job>, after: seq<Job>) returns (all: seq<Event>)
    requires |before| == |after|
    ensures all == EnsureAll(events, before, after)
  {
    all := events;
    for i := 0 to |after|
      invariant all == EnsureAll(events, before[..i], after[..i])
    {
      assert before[..i + 1][..i] == before[..i] && after[..i + 1][..i] == after[..i];
      all := EnsureLifecycle(all, before[i], after[i], false);
    }
    assert before[..|after|] == before && after[..|after|] == after;
  }

  method JobsMayMove(before: seq<Job>, after: seq<Job>) returns (allowed: bool)
    requires |before| == |after|
    ensures allowed <==> forall i :: 0 <= i < |before| ==> before[i].status == after[i].status || JobTransition(before[i].status, after[i].status)
  {
    for i := 0 to |after|
      invariant forall k :: 0 <= k < i ==> before[k].status == after[k].status || JobTransition(before[k].status, after[k].status)
    {
      if before[i].status != after[i].status && !JobTransition(before[i].status, after[i].status) { return false; }
    }
    return true;
  }

  method MayMove(operation: Operation, batch: Batch, before: seq<Job>, c: BatchChange) returns (allowed: bool)
    requires |before| == |c.jobs|
    ensures allowed <==> Allowed(operation, batch, before, c)
  {
    if batch.status != c.batch.status && !BatchTransition(batch.status, c.batch.status) { return false; }
    if operation.status != c.operation.status && !OperationTransition(operation.status, c.operation.status) { return false; }
    allowed := JobsMayMove(before, c.jobs);
  }

  method StampJobs(before: seq<Job>, after: seq<Job>, now: int) returns (stamped: seq<Job>)
    requires |before| == |after|
    ensures stamped == StampBatchJobs(before, after, now)
  {
    stamped := [];
    for i := 0 to |after|
      invariant |stamped| == i && forall k :: 0 <= k < i ==> stamped[k] == StampBatchJob(before[k], after[k], now)
    {
      var job := after[i];
      if before[i] != job {
        job := job.(version := job.version + 1, updatedAt := now);
        if Terminal(job) && job.terminalAt.None? { job := job.(terminalAt := Some(now)); }
      }
      stamped := stamped + [job];
    }
  }

  method WriteBack(jobs: map<Id, Job>, updated: seq<Job>) returns (r: map<Id, Job>)
    ensures r == PutJobs(jobs, updated)
  {
    r := jobs;
    for i := 0 to |updated|
      invariant r == PutJobs(jobs, updated[..i])
    {
      assert updated[..i + 1][..i] == updated[..i];
      r := r[updated[i].spec.id := updated[i]];
    }
    assert updated[..|updated|] == updated;
  }
}
