/** What every sequence of store operations keeps, whoever calls them and with whatever mutation. */
module StoreInvariants {
  import opened Basics
  import opened GenerationModels
  import opened JobMutations
  import opened WorkflowStore
  import opened BatchTransactions

  // ---------------------------------------------------------------- operations

  /** Every way a caller can change the store. */
  datatype StoreOp =
    | Create(command: CreateCommand, now: int)
    | Mutate(job: Id, expected: int, mutation: Mutation, now: int)
    | Renew(job: Id, owner: string, until: int, now: int)
    | Barrier(batch: Id, now: int)
    | Cancel(batch: Id, now: int)
    | Acknowledge(key: OutboxKey)
    | Reject(key: OutboxKey, now: int)
    | Nothing

  /** The dispatcher gives up after ten attempts, except on barrier requests. */
  function MaxAttemptsFor(row: Row): int {
    if row.event.kind.FinalizeRequested? then 0 else 10
  }

  function OrElse(r: Result<Store, Error>, s: Store): Store { if r.Ok? then r.value else s }

  /** A failed operation leaves the store as it was. */
  function Do(s: Store, op: StoreOp): Store {
    match op
    case Create(command, now) => var r := CreateWorkflow(s, command, now); if r.Ok? then r.value.0 else s
    case Mutate(job, expected, mutation, now) => var r := MutateJob(s, job, expected, mutation, now); if r.Ok? then r.value.0 else s
    case Renew(job, owner, until, now) => OrElse(RenewJobLease(s, job, owner, until, now), s)
    case Barrier(batch, now) => OrElse(TryFinalize(s, batch, now), s)
    case Cancel(batch, now) => OrElse(CancelBatch(s, batch, now), s)
    case Acknowledge(key) => OrElse(MarkPublished(s, key), s)
    case Reject(key, now) => if key in s.outbox then OrElse(MarkFailed(s, key, now, MaxAttemptsFor(s.outbox[key])), s) else s
    case Nothing => s
  }

  // ---------------------------------------------------------------- the invariant

  ghost predicate JobLink(s: Store, id: Id)
    requires id in s.jobs
  {
    var j := s.jobs[id];
    j.spec.id == id && j.version >= 1 && j.spec.batch in s.batches && j.spec.batch in s.jobIds && id in s.jobIds[j.spec.batch]
  }

  ghost predicate BatchLink(s: Store, b: Id)
    requires b in s.batches
  {
    && Linked(s, b) && s.batches[b].id == b && s.jobIds[b] != []
    && s.operations[s.batches[b].operation].id == s.batches[b].operation
    && s.operations[s.batches[b].operation].batch == b
    && (forall i, k :: 0 <= i < k < |s.jobIds[b]| ==> s.jobIds[b][i] != s.jobIds[b][k])
    && (forall i :: 0 <= i < |s.jobIds[b]| ==> s.jobs[s.jobIds[b][i]].spec.batch == b)
  }

  ghost predicate Links(s: Store) {
    && s.jobIds.Keys == s.batches.Keys
    && (forall id :: id in s.jobs ==> JobLink(s, id))
    && (forall b :: b in s.batches ==> BatchLink(s, b))
    && (forall o :: o in s.operations ==> s.operations[o].batch in s.batches && s.batches[s.operations[o].batch].operation == o)
  }

  /** What the presence of a row says about the records. */
  ghost predicate RowMeaning(s: Store, row: Row) {
    match row.event.key
    case JobPoll(j, n) => j in s.jobs && n <= s.jobs[j].version
    case JobRetry(j, n) => j in s.jobs && n <= s.jobs[j].version
    case JobLifecycle(j, n) => j in s.jobs && n <= s.jobs[j].version
    case JobSucceeded(j) => j in s.jobs && Terminal(s.jobs[j])
    case JobFailed(j, _) => j in s.jobs && Terminal(s.jobs[j])
    case JobCancelled(j) => j in s.jobs && Terminal(s.jobs[j])
    case JobWake(j, trigger) =>
      j in s.jobs && row.event.batch == s.jobs[j].spec.batch && (trigger.BecameTerminal? ==> Terminal(s.jobs[j]))
    case CancelWake(b) => b in s.batches && row.event.batch == b && s.batches[b].cancelRequested
    case BatchEnded(b) =>
      && b in s.batches && TerminalBatch(s.batches[b].status) && row.event.ending.Some?
      && EndingMatches(s, b, row.event.ending.value)
    case _ => true
  }

  ghost predicate EndingMatches(s: Store, b: Id, e: Ending)
    requires b in s.batches
  {
    var batch := s.batches[b];
    && e.batch == b && e.status == batch.status && e.version == batch.version && e.cost == batch.cost
    && batch.operation in s.operations && s.operations[batch.operation].result == Some(e)
  }

  /** Barrier requests are told apart by their key and are never dead-lettered. */
  ghost predicate RowShape(key: OutboxKey, row: Row) {
    && row.event.key == key
    && (row.event.kind.FinalizeRequested? <==> key.JobWake? || key.CancelWake?)
    && (row.event.kind.FinalizeRequested? ==> !row.status.RowDead?)
  }

  ghost predicate Rows(s: Store) {
    forall k :: k in s.outbox ==> RowShape(k, s.outbox[k]) && RowMeaning(s, s.outbox[k])
  }

  ghost predicate BatchState(s: Store, b: Id)
    requires b in s.batches && Linked(s, b)
  {
    var batch, op := s.batches[b], s.operations[s.batches[b].operation];
    && (batch.status.BatchCancelling? ==> batch.cancelRequested)
    && (batch.cancelRequested ==> batch.status.BatchCancelling? || TerminalBatch(batch.status))
    && (TerminalBatch(batch.status) ==> BatchEnded(b) in s.outbox && AllTerminal(JobsOf(s, b)) && op.status == OperationStatusFor(batch.status))
    && (!TerminalBatch(batch.status) ==> op.status.OpWaiting?)
  }

  ghost predicate StoreInv(s: Store) {
    && Links(s)
    && Rows(s)
    && forall b :: b in s.batches ==> BatchState(s, b)
  }

  // ---------------------------------------------------------------- what a mutation may do

  ghost predicate EventFits(e: Event, before: Job, after: Job) {
    && e.job == before.spec.id && e.batch == before.spec.batch
    && (e.kind.FinalizeRequested? <==> e.key.JobWake?)
    && match e.key
       case JobPoll(j, n) => j == before.spec.id && n == before.version + 1
       case JobRetry(j, n) => j == before.spec.id && n == before.version + 1
       case JobLifecycle(j, n) => j == before.spec.id && n == before.version + 1
       case JobSucceeded(j) => j == before.spec.id && Terminal(after)
       case JobFailed(j, _) => j == before.spec.id && Terminal(after)
       case JobCancelled(j) => j == before.spec.id && Terminal(after)
       case JobWake(j, t) => j == before.spec.id && (t.BecameTerminal? ==> Terminal(after)) && (t.Settled? ==> after.comp.CompCompleted? || after.comp.ManuallyFinal?)
       case CompensationRequested(j, _) => j == before.spec.id
       case CompensationRetry(j, _) => j == before.spec.id
       case CompensationFailed(j, _) => j == before.spec.id
       case CompensationCompleted(j, _) => j == before.spec.id
       case CompensationManual(j) => j == before.spec.id
       case _ => false
  }

  ghost predicate RecordFits(before: Job, after: Job) {
    && after.spec == before.spec && after.version == before.version && after.cancelRequested == before.cancelRequested
    && after.terminalAt == before.terminalAt && after.startedAt == before.startedAt
    && (before.usage.Some? ==> after.usage == before.usage)
    && (before.quote.Some? ==> after.quote == before.quote)
  }

  ghost predicate EventsFit(before: Job, c: Change) {
    && (forall e :: e in c.events ==> EventFits(e, before, c.job))
    && (Terminal(c.job) && !Terminal(before) ==> WakeFor(c.job, BecameTerminal) in c.events)
  }

  ghost predicate ChangeFits(before: Job, c: Change) { RecordFits(before, c.job) && EventsFit(before, c) }

  lemma WorkerFits(m: WorkerMutation, job: Job, now: int)
    ensures ApplyWorker(m, job, now).Ok? ==> ChangeFits(job, ApplyWorker(m, job, now).value)
  {
  }

  lemma FinalRecordFits(m: FinalMutation, job: Job, now: int)
    ensures ApplyFinal(m, job, now).Ok? ==> RecordFits(job, ApplyFinal(m, job, now).value.job)
  {
  }

  lemma FinalEventFits(m: FinalMutation, job: Job, now: int, e: Event)
    requires ApplyFinal(m, job, now).Ok? && e in ApplyFinal(m, job, now).value.events
    ensures EventFits(e, job, ApplyFinal(m, job, now).value.job)
  {
  }

  lemma FinalWakes(m: FinalMutation, job: Job, now: int)
    requires ApplyFinal(m, job, now).Ok?
    ensures var c := ApplyFinal(m, job, now).value; Terminal(c.job) && !Terminal(job) ==> WakeFor(c.job, BecameTerminal) in c.events
  {
  }

  lemma FinalEventsFit(m: FinalMutation, job: Job, now: int)
    requires ApplyFinal(m, job, now).Ok?
    ensures EventsFit(job, ApplyFinal(m, job, now).value)
  {
    var c := ApplyFinal(m, job, now).value;
    forall e | e in c.events ensures EventFits(e, job, c.job) { FinalEventFits(m, job, now, e); }
    FinalWakes(m, job, now);
  }

  lemma FinalFits(m: FinalMutation, job: Job, now: int)
    ensures ApplyFinal(m, job, now).Ok? ==> ChangeFits(job, ApplyFinal(m, job, now).value)
  {
    FinalRecordFits(m, job, now);
    if ApplyFinal(m, job, now).Ok? { FinalEventsFit(m, job, now); }
  }

  lemma CompFits(m: CompMutation, job: Job, now: int)
    ensures ApplyComp(m, job, now).Ok? ==> ChangeFits(job, ApplyComp(m, job, now).value)
  {
  }

  lemma MutationFits(m: Mutation, job: Job, now: int)
    ensures Apply(m, job, now).Ok? ==> ChangeFits(job, Apply(m, job, now).value)
  {
    match m {
      case ByWorker(w) => WorkerFits(w, job, now);
      case ByFinalizer(f) => FinalFits(f, job, now);
      case ByCompensation(c) => CompFits(c, job, now);
    }
  }

  /** The stored job after a successful mutation: one version on, along the transition table. */
  ghost predicate Advances(a: Job, b: Job) {
    && b.spec == a.spec && b.version == a.version + 1 && b.cancelRequested == a.cancelRequested
    && (b.status == a.status || JobTransition(a.status, b.status))
    && (a.usage.Some? ==> b.usage == a.usage)
    && (a.quote.Some? ==> b.quote == a.quote)
  }

  lemma StampedEventsFit(job: Job, c: Change, now: int)
    requires ChangeFits(job, c)
    ensures forall e :: e in EnsureLifecycle(c.events, job, c.job, true) ==> EventFits(e, job, StampJob(job, c.job, now))
  {
    forall e | e in EnsureLifecycle(c.events, job, c.job, true) ensures EventFits(e, job, StampJob(job, c.job, now)) {
      if e in c.events { assert EventFits(e, job, c.job); }
    }
  }

  lemma StampAdvances(job: Job, c: Change, now: int)
    requires ChangeFits(job, c) && (job.status == c.job.status || JobTransition(job.status, c.job.status))
    ensures Advances(job, StampJob(job, c.job, now))
    ensures Terminal(c.job) && !Terminal(job) ==> WakeFor(StampJob(job, c.job, now), BecameTerminal) in EnsureLifecycle(c.events, job, c.job, true)
  {
    assert WakeFor(c.job, BecameTerminal) == WakeFor(StampJob(job, c.job, now), BecameTerminal);
  }

  lemma MutateEffect(s: Store, id: Id, expected: int, m: Mutation, now: int) returns (job': Job, events: seq<Event>)
    requires MutateJob(s, id, expected, m, now).Ok?
    ensures id in s.jobs
    ensures MutateJob(s, id, expected, m, now).value == (s.(jobs := s.jobs[id := job'], outbox := AppendAll(s.outbox, events, now)), job')
    ensures Advances(s.jobs[id], job')
    ensures forall e :: e in events ==> EventFits(e, s.jobs[id], job')
    ensures Terminal(job') && !Terminal(s.jobs[id]) ==> exists e :: e in events && e == WakeFor(job', BecameTerminal)
  {
    var job := s.jobs[id];
    MutationFits(m, job, now);
    var c := Apply(m, job, now).value;
    job' := StampJob(job, c.job, now);
    events := EnsureLifecycle(c.events, job, c.job, true);
    StampedEventsFit(job, c, now);
    StampAdvances(job, c, now);
  }

  // ---------------------------------------------------------------- growth

  /**
   How a stored job may develop: same identity, versions only grow, terminal statuses stay,
   what was recorded stays recorded, and one version number stands for one content.
   */
  ghost predicate JobGrows(a: Job, b: Job) {
    && b.spec == a.spec && a.version <= b.version
    && (a.version == b.version ==> Stamped(a) == Stamped(b))
    && (Terminal(a) ==> b.status == a.status)
    && (a.cancelRequested ==> b.cancelRequested)
    && (a.usage.Some? ==> b.usage == a.usage)
    && (a.quote.Some? ==> b.quote == a.quote)
  }

  /** How a stored batch may develop: once it has ended, neither it nor its operation changes. */
  ghost predicate BatchGrows(s: Store, s': Store, b: Id)
    requires b in s.batches
  {
    && b in s'.batches
    && (s.batches[b].cancelRequested ==> s'.batches[b].cancelRequested)
    && (TerminalBatch(s.batches[b].status) ==>
          && s'.batches[b] == s.batches[b]
          && (s.batches[b].operation in s.operations ==>
                s.batches[b].operation in s'.operations && s'.operations[s.batches[b].operation] == s.operations[s.batches[b].operation]))
  }

  ghost predicate Grows(s: Store, s': Store) {
    && (forall id :: id in s.jobs ==> id in s'.jobs && JobGrows(s.jobs[id], s'.jobs[id]))
    && (forall b :: b in s.batches ==> BatchGrows(s, s', b))
    && s.outbox.Keys <= s'.outbox.Keys
  }

  lemma GrowsRefl(s: Store)
    ensures Grows(s, s)
  {
  }

  lemma RowPersists(s: Store, s': Store, row: Row)
    requires Grows(s, s') && RowMeaning(s, row)
    ensures RowMeaning(s', row)
  {
    match row.event.key {
      case JobPoll(j, n) => assert JobGrows(s.jobs[j], s'.jobs[j]);
      case JobRetry(j, n) => assert JobGrows(s.jobs[j], s'.jobs[j]);
      case JobLifecycle(j, n) => assert JobGrows(s.jobs[j], s'.jobs[j]);
      case JobSucceeded(j) => assert JobGrows(s.jobs[j], s'.jobs[j]);
      case JobFailed(j, _) => assert JobGrows(s.jobs[j], s'.jobs[j]);
      case JobCancelled(j) => assert JobGrows(s.jobs[j], s'.jobs[j]);
      case JobWake(j, _) => assert JobGrows(s.jobs[j], s'.jobs[j]);
      case CancelWake(b) => assert BatchGrows(s, s', b);
      case BatchEnded(b) => assert BatchGrows(s, s', b);
      case _ =>
    }
  }

  /** Old rows keep their meaning; only the rows that are new need a look. */
  lemma RowsPersist(s: Store, s': Store)
    requires Rows(s) && Grows(s, s')
    requires forall k :: k in s.outbox ==> s'.outbox[k].event == s.outbox[k].event
    requires forall k :: k in s.outbox ==> s.outbox[k].event.kind.FinalizeRequested? ==> !s'.outbox[k].status.RowDead?
    requires forall k :: k in s'.outbox && k !in s.outbox ==> RowShape(k, s'.outbox[k]) && RowMeaning(s', s'.outbox[k])
    ensures Rows(s')
  {
    forall k | k in s'.outbox ensures RowShape(k, s'.outbox[k]) && RowMeaning(s', s'.outbox[k]) {
      if k in s.outbox {
        assert RowShape(k, s.outbox[k]) && RowMeaning(s, s.outbox[k]);
        RowPersists(s, s', s.outbox[k]);
      }
    }
  }

  /** Records may change, but no identity or reference does. */
  ghost predicate SameShape(s: Store, s': Store) {
    && s'.jobIds == s.jobIds
    && s'.jobs.Keys == s.jobs.Keys
    && (forall id :: id in s.jobs ==> s'.jobs[id].spec == s.jobs[id].spec && s'.jobs[id].version >= s.jobs[id].version)
    && s'.batches.Keys == s.batches.Keys
    && (forall b :: b in s.batches ==> s'.batches[b].id == s.batches[b].id && s'.batches[b].operation == s.batches[b].operation)
    && s'.operations.Keys == s.operations.Keys
    && (forall o :: o in s.operations ==> s'.operations[o].id == s.operations[o].id && s'.operations[o].batch == s.operations[o].batch)
  }

  lemma LinksPersist(s: Store, s': Store)
    requires Links(s) && SameShape(s, s')
    ensures Links(s')
  {
    forall x | x in s'.jobs ensures JobLink(s', x) { assert JobLink(s, x); }
    forall b | b in s'.batches ensures BatchLink(s', b) { assert BatchLink(s, b); }
  }

  lemma AllTerminalPersists(s: Store, s': Store, b: Id)
    requires Grows(s, s') && Linked(s, b) && Linked(s', b) && s'.jobIds[b] == s.jobIds[b]
    requires AllTerminal(JobsOf(s, b))
    ensures AllTerminal(JobsOf(s', b))
  {
    forall j | j in JobsOf(s', b) ensures Terminal(j) {
      var i :| 0 <= i < |JobsOf(s', b)| && JobsOf(s', b)[i] == j;
      var id := s.jobIds[b][i];
      assert JobsOf(s, b)[i] in JobsOf(s, b);
      assert JobGrows(s.jobs[id], s'.jobs[id]);
    }
  }

  /** A batch whose own records are untouched stays sound. */
  lemma BatchStatePersists(s: Store, s': Store, b: Id)
    requires Grows(s, s') && b in s.batches && b in s'.batches && Linked(s, b) && Linked(s', b)
    requires s'.jobIds[b] == s.jobIds[b] && s'.batches[b] == s.batches[b]
    requires s'.operations[s.batches[b].operation] == s.operations[s.batches[b].operation]
    requires BatchState(s, b)
    ensures BatchState(s', b)
  {
    if TerminalBatch(s.batches[b].status) { AllTerminalPersists(s, s', b); }
  }

  // ---------------------------------------------------------------- MutateJob

  lemma JobStepGrows(s: Store, id: Id, job': Job, outbox: Outbox)
    requires id in s.jobs && Advances(s.jobs[id], job') && s.outbox.Keys <= outbox.Keys
    ensures Grows(s, s.(jobs := s.jobs[id := job'], outbox := outbox))
    ensures SameShape(s, s.(jobs := s.jobs[id := job'], outbox := outbox))
  {
  }

  lemma JobStepKeepsRows(s: Store, id: Id, job': Job, events: seq<Event>, now: int)
    requires Rows(s) && id in s.jobs && s.jobs[id].spec.id == id && Advances(s.jobs[id], job')
    requires forall e :: e in events ==> EventFits(e, s.jobs[id], job')
    ensures Rows(s.(jobs := s.jobs[id := job'], outbox := AppendAll(s.outbox, events, now)))
  {
    var s' := s.(jobs := s.jobs[id := job'], outbox := AppendAll(s.outbox, events, now));
    JobStepGrows(s, id, job', s'.outbox);
    forall k | k in s.outbox ensures s.outbox[k].event.kind.FinalizeRequested? ==> !s'.outbox[k].status.RowDead? {
      assert RowShape(k, s.outbox[k]);
    }
    forall k | k in s'.outbox && k !in s.outbox ensures RowShape(k, s'.outbox[k]) && RowMeaning(s', s'.outbox[k]) {
      assert EventFits(s'.outbox[k].event, s.jobs[id], job');
    }
    RowsPersist(s, s');
  }

  lemma UntouchedBatchesKeep(s: Store, s': Store)
    requires StoreInv(s) && Links(s') && Grows(s, s')
    requires s'.batches == s.batches && s'.operations == s.operations && s'.jobIds == s.jobIds
    ensures forall b :: b in s'.batches ==> BatchState(s', b)
  {
    forall b | b in s'.batches ensures BatchState(s', b) {
      assert BatchLink(s, b) && BatchLink(s', b) && BatchState(s, b);
      BatchStatePersists(s, s', b);
    }
  }

  lemma JobStepKeeps(s: Store, id: Id, job': Job, events: seq<Event>, now: int)
    requires StoreInv(s) && id in s.jobs && Advances(s.jobs[id], job')
    requires forall e :: e in events ==> EventFits(e, s.jobs[id], job')
    ensures StoreInv(s.(jobs := s.jobs[id := job'], outbox := AppendAll(s.outbox, events, now)))
  {
    var s' := s.(jobs := s.jobs[id := job'], outbox := AppendAll(s.outbox, events, now));
    assert JobLink(s, id);
    JobStepGrows(s, id, job', s'.outbox);
    JobStepKeepsRows(s, id, job', events, now);
    LinksPersist(s, s');
    UntouchedBatchesKeep(s, s');
  }

  lemma MutateKeeps(s: Store, id: Id, expected: int, m: Mutation, now: int)
    requires StoreInv(s) && MutateJob(s, id, expected, m, now).Ok?
    ensures StoreInv(MutateJob(s, id, expected, m, now).value.0)
    ensures Grows(s, MutateJob(s, id, expected, m, now).value.0)
  {
    var job', events := MutateEffect(s, id, expected, m, now);
    JobStepKeeps(s, id, job', events, now);
    JobStepGrows(s, id, job', AppendAll(s.outbox, events, now));
  }

  // ---------------------------------------------------------------- leases and acknowledgements

  /** A step that adds no row and touches no batch record. */
  ghost predicate Touches(s: Store, s': Store) {
    && Grows(s, s') && SameShape(s, s')
    && s'.batches == s.batches && s'.operations == s.operations
    && s'.outbox.Keys == s.outbox.Keys
    && (forall k :: k in s.outbox ==> s'.outbox[k].event == s.outbox[k].event)
    && (forall k :: k in s.outbox && s.outbox[k].event.kind.FinalizeRequested? && !s.outbox[k].status.RowDead? ==> !s'.outbox[k].status.RowDead?)
  }

  lemma TouchKeeps(s: Store, s': Store)
    requires StoreInv(s) && Touches(s, s')
    ensures StoreInv(s')
  {
    forall k | k in s.outbox && s.outbox[k].event.kind.FinalizeRequested? ensures !s'.outbox[k].status.RowDead? {
      assert RowShape(k, s.outbox[k]);
    }
    RowsPersist(s, s');
    LinksPersist(s, s');
    UntouchedBatchesKeep(s, s');
  }

  lemma RenewTouches(s: Store, id: Id, owner: string, until: int, now: int)
    requires RenewJobLease(s, id, owner, until, now).Ok?
    ensures Touches(s, RenewJobLease(s, id, owner, until, now).value)
  {
    var s' := RenewJobLease(s, id, owner, until, now).value;
    assert Stamped(s'.jobs[id]) == Stamped(s.jobs[id]);
  }

  lemma OutboxTouches(s: Store, outbox: Outbox)
    requires outbox.Keys == s.outbox.Keys
    requires forall k :: k in s.outbox ==> outbox[k].event == s.outbox[k].event
    requires forall k :: k in s.outbox && s.outbox[k].event.kind.FinalizeRequested? && !s.outbox[k].status.RowDead? ==> !outbox[k].status.RowDead?
    ensures Touches(s, s.(outbox := outbox))
  {
  }

  lemma PublishTouches(s: Store, key: OutboxKey)
    requires MarkPublished(s, key).Ok?
    ensures Touches(s, MarkPublished(s, key).value)
  {
    OutboxTouches(s, MarkPublished(s, key).value.outbox);
  }

  lemma RejectTouches(s: Store, key: OutboxKey, now: int)
    requires key in s.outbox
    ensures MarkFailed(s, key, now, MaxAttemptsFor(s.outbox[key])).Ok?
    ensures Touches(s, MarkFailed(s, key, now, MaxAttemptsFor(s.outbox[key])).value)
  {
    OutboxTouches(s, MarkFailed(s, key, now, MaxAttemptsFor(s.outbox[key])).value.outbox);
  }

  // ---------------------------------------------------------------- creation

  /** The records a creation adds, told apart from those that were there. */
  ghost predicate AddsRecords(s: Store, s': Store, c: CreateCommand) {
    && c.operation !in s.operations && c.batch !in s.batches
    && s'.operations.Keys == s.operations.Keys + {c.operation} && s'.batches.Keys == s.batches.Keys + {c.batch}
    && (forall o :: o in s.operations ==> s'.operations[o] == s.operations[o])
    && (forall b :: b in s.batches ==> s'.batches[b] == s.batches[b])
    && s'.operations[c.operation].id == c.operation && s'.operations[c.operation].batch == c.batch && s'.operations[c.operation].status.OpWaiting?
    && s'.batches[c.batch].id == c.batch && s'.batches[c.batch].operation == c.operation
    && s'.batches[c.batch].status.BatchWaiting? && !s'.batches[c.batch].cancelRequested
  }

  ghost predicate AddsJobs(s: Store, s': Store, c: CreateCommand, jobs: seq<Job>) {
    && c.batch !in s.jobIds && s'.jobIds.Keys == s.jobIds.Keys + {c.batch}
    && (forall b :: b in s.jobIds ==> s'.jobIds[b] == s.jobIds[b])
    && |s'.jobIds[c.batch]| == |jobs| > 0
    && (forall i :: 0 <= i < |jobs| ==> s'.jobIds[c.batch][i] == jobs[i].spec.id)
    && DistinctIds(jobs)
    && (forall i :: 0 <= i < |jobs| ==> AddsJob(s, s', c, jobs[i]))
    && (forall id :: id in s.jobs ==> id in s'.jobs && s'.jobs[id] == s.jobs[id])
    && (forall id :: id in s'.jobs && id !in s.jobs ==> exists i :: 0 <= i < |jobs| && jobs[i].spec.id == id)
  }

  ghost predicate AddsJob(s: Store, s': Store, c: CreateCommand, job: Job) {
    && job.spec.id !in s.jobs && job.spec.id in s'.jobs && s'.jobs[job.spec.id] == job
    && job.spec.batch == c.batch && job.status.Queued? && job.version == 1
  }

  lemma WithWorkflowRecords(s: Store, c: CreateCommand, jobs: seq<Job>, now: int)
    requires c.operation !in s.operations && c.batch !in s.batches
    ensures AddsRecords(s, WithWorkflow(s, c, jobs, now), c)
  {
    WithRecordsAdds(s, c, jobs);
  }

  lemma WithRecordsAdds(s: Store, c: CreateCommand, jobs: seq<Job>)
    requires c.operation !in s.operations && c.batch !in s.batches
    ensures AddsRecords(s, WithRecords(s, c, jobs), c)
  {
  }

  lemma WithWorkflowJobs(s: Store, c: CreateCommand, jobs: seq<Job>, now: int)
    requires c.batch !in s.jobIds && DistinctIds(jobs) && jobs != []
    requires forall i :: 0 <= i < |jobs| ==> jobs[i].spec.id !in s.jobs
    requires forall i :: 0 <= i < |jobs| ==> jobs[i].spec.batch == c.batch && jobs[i].status.Queued? && jobs[i].version == 1
    ensures AddsJobs(s, WithWorkflow(s, c, jobs, now), c, jobs)
  {
    var s' := WithWorkflow(s, c, jobs, now);
    assert s'.jobs == PutJobs(s.jobs, jobs);
    forall i | 0 <= i < |jobs| ensures AddsJob(s, s', c, jobs[i]) { PutJobsFinds(s.jobs, jobs, i); }
    forall id | id in s.jobs ensures id in s'.jobs && s'.jobs[id] == s.jobs[id] { PutJobsOther(s.jobs, jobs, id); }
    forall id | id in s'.jobs && id !in s.jobs ensures exists i :: 0 <= i < |jobs| && jobs[i].spec.id == id {
      if forall i :: 0 <= i < |jobs| ==> jobs[i].spec.id != id { PutJobsOther(s.jobs, jobs, id); }
    }
  }

  lemma AddedGrows(s: Store, s': Store, c: CreateCommand, jobs: seq<Job>)
    requires Links(s) && AddsRecords(s, s', c) && AddsJobs(s, s', c, jobs) && s.outbox.Keys <= s'.outbox.Keys
    ensures Grows(s, s')
  {
    forall id | id in s.jobs ensures id in s'.jobs && JobGrows(s.jobs[id], s'.jobs[id]) {}
    forall b | b in s.batches ensures BatchGrows(s, s', b) {}
  }

  lemma AddedJobLinks(s: Store, s': Store, c: CreateCommand, jobs: seq<Job>, id: Id)
    requires Links(s) && AddsRecords(s, s', c) && AddsJobs(s, s', c, jobs) && id in s'.jobs
    ensures JobLink(s', id)
  {
    if id in s.jobs { assert JobLink(s, id); }
    else {
      var i :| 0 <= i < |jobs| && jobs[i].spec.id == id;
      assert AddsJob(s, s', c, jobs[i]) && s'.jobIds[c.batch][i] == id;
    }
  }

  lemma AddedBatchLinks(s: Store, s': Store, c: CreateCommand, jobs: seq<Job>, b: Id)
    requires Links(s) && AddsRecords(s, s', c) && AddsJobs(s, s', c, jobs) && b in s'.batches
    ensures BatchLink(s', b)
  {
    if b != c.batch { assert BatchLink(s, b); }
    else {
      forall i | 0 <= i < |jobs| ensures s'.jobIds[b][i] in s'.jobs && s'.jobs[s'.jobIds[b][i]].spec.batch == b {
        assert AddsJob(s, s', c, jobs[i]);
      }
    }
  }

  lemma AddedLinks(s: Store, s': Store, c: CreateCommand, jobs: seq<Job>)
    requires Links(s) && AddsRecords(s, s', c) && AddsJobs(s, s', c, jobs)
    ensures Links(s')
  {
    forall id | id in s'.jobs ensures JobLink(s', id) { AddedJobLinks(s, s', c, jobs, id); }
    forall b | b in s'.batches ensures BatchLink(s', b) { AddedBatchLinks(s, s', c, jobs, b); }
  }

  lemma CreationRows(s: Store, s': Store, c: CreateCommand, jobs: seq<Job>, now: int)
    requires Rows(s) && Grows(s, s') && s'.outbox == AppendAll(s.outbox, CreationEvents(c, jobs), now)
    ensures Rows(s')
  {
    var events := CreationEvents(c, jobs);
    forall k | k in s.outbox && s.outbox[k].event.kind.FinalizeRequested? ensures !s'.outbox[k].status.RowDead? {
      assert RowShape(k, s.outbox[k]);
    }
    forall k | k in s'.outbox && k !in s.outbox ensures RowShape(k, s'.outbox[k]) && RowMeaning(s', s'.outbox[k]) {
      var i :| 0 <= i < |events| && events[i] == s'.outbox[k].event;
      assert i > 0 ==> events[i].key.JobDispatch? && events[i].kind.JobEvent?;
    }
    RowsPersist(s, s');
  }

  lemma AddedBatches(s: Store, s': Store, c: CreateCommand, jobs: seq<Job>)
    requires StoreInv(s) && Links(s') && Grows(s, s') && AddsRecords(s, s', c) && AddsJobs(s, s', c, jobs)
    ensures forall b :: b in s'.batches ==> BatchState(s', b)
  {
    forall b | b in s'.batches ensures BatchState(s', b) {
      assert BatchLink(s', b);
      if b != c.batch {
        assert BatchLink(s, b) && BatchState(s, b);
        BatchStatePersists(s, s', b);
      }
    }
  }

  lemma AdditionKeeps(s: Store, s': Store, c: CreateCommand, jobs: seq<Job>, now: int)
    requires StoreInv(s) && AddsRecords(s, s', c) && AddsJobs(s, s', c, jobs)
    requires s'.outbox == AppendAll(s.outbox, CreationEvents(c, jobs), now)
    ensures StoreInv(s') && Grows(s, s')
  {
    AddedGrows(s, s', c, jobs);
    AddedLinks(s, s', c, jobs);
    CreationRows(s, s', c, jobs, now);
    AddedBatches(s, s', c, jobs);
  }

  lemma NewJobsFresh(s: Store, c: CreateCommand, now: int)
    requires CreateAllowed(s, c)
    ensures var jobs := NewJobs(c, now);
            && DistinctIds(jobs) && jobs != []
            && (forall i :: 0 <= i < |jobs| ==> jobs[i].spec.id !in s.jobs)
            && (forall i :: 0 <= i < |jobs| ==> jobs[i].spec.batch == c.batch && jobs[i].status.Queued? && jobs[i].version == 1)
  {
    var jobs := NewJobs(c, now);
    forall i | 0 <= i < |jobs| ensures jobs[i].spec.id !in s.jobs { assert c.jobs[i] in c.jobs; }
  }

  lemma CreatedShape(s: Store, c: CreateCommand, now: int)
    requires CreateAllowed(s, c) && s.jobIds.Keys == s.batches.Keys
    ensures var s', jobs := WithWorkflow(s, c, NewJobs(c, now), now), NewJobs(c, now);
            AddsRecords(s, s', c) && AddsJobs(s, s', c, jobs) && s'.outbox == AppendAll(s.outbox, CreationEvents(c, jobs), now)
  {
    var jobs := NewJobs(c, now);
    NewJobsFresh(s, c, now);
    WithWorkflowRecords(s, c, jobs, now);
    WithWorkflowJobs(s, c, jobs, now);
  }

  lemma CreateKeeps(s: Store, c: CreateCommand, now: int)
    requires StoreInv(s) && CreateAllowed(s, c)
    ensures StoreInv(WithWorkflow(s, c, NewJobs(c, now), now))
    ensures Grows(s, WithWorkflow(s, c, NewJobs(c, now), now))
  {
    CreatedShape(s, c, now);
    AdditionKeeps(s, WithWorkflow(s, c, NewJobs(c, now), now), c, NewJobs(c, now), now);
  }

  // ---------------------------------------------------------------- barrier

  lemma {:induction false} CountBounds(jobs: seq<Job>, status: JobStatus)
    ensures 0 <= Count(jobs, status) <= |jobs|
    decreases |jobs|
  {
    if jobs != [] { CountBounds(jobs[..|jobs| - 1], status); }
  }

  lemma {:induction false} PutSame(m: map<Id, Job>, jobs: seq<Job>)
    requires forall i :: 0 <= i < |jobs| ==> jobs[i].spec.id in m && m[jobs[i].spec.id] == jobs[i]
    ensures PutJobs(m, jobs) == m
    decreases |jobs|
  {
    if jobs != [] {
      PutSame(m, jobs[..|jobs| - 1]);
      var last := jobs[|jobs| - 1];
      assert m[last.spec.id := last] == m;
    }
  }

  lemma {:induction false} EnsureAllSame(events: seq<Event>, jobs: seq<Job>)
    ensures EnsureAll(events, jobs, jobs) == events
    decreases |jobs|
  {
    if jobs != [] { EnsureAllSame(events, jobs[..|jobs| - 1]); }
  }

  /** In no state that satisfies the invariant does the transition table refuse the barrier's move. */
  lemma BarrierAllowed(o: Operation, b: Batch, jobs: seq<Job>)
    requires b.status.BatchCancelling? ==> b.cancelRequested
    requires b.cancelRequested ==> b.status.BatchCancelling? || TerminalBatch(b.status)
    requires !TerminalBatch(b.status) ==> o.status.OpWaiting?
    ensures Allowed(o, b, jobs, BarrierChange(o, b, jobs))
  {
  }

  lemma BarrierEffect(s: Store, b: Id, now: int)
    requires StoreInv(s) && b in s.batches
    ensures Linked(s, b)
    ensures var o := s.batches[b].operation;
            var c := BarrierChange(s.operations[o], s.batches[b], JobsOf(s, b));
            TryFinalize(s, b, now) == Ok(s.(operations := s.operations[o := StampOperation(s.operations[o], c.operation, now)],
                                           batches := s.batches[b := StampBatch(s.batches[b], c.batch, now)],
                                           outbox := AppendAll(s.outbox, c.events, now)))
  {
    assert BatchLink(s, b) && BatchState(s, b);
    var o := s.operations[s.batches[b].operation];
    var jobs := JobsOf(s, b);
    var c := BarrierChange(o, s.batches[b], jobs);
    BarrierAllowed(o, s.batches[b], jobs);
    forall i | 0 <= i < |jobs| ensures jobs[i].spec.id in s.jobs && s.jobs[jobs[i].spec.id] == jobs[i] {
      assert JobLink(s, s.jobIds[b][i]);
    }
    assert StampBatchJobs(jobs, c.jobs, now) == jobs;
    PutSame(s.jobs, jobs);
    EnsureAllSame(c.events, jobs);
  }

  /** The store with one batch and its operation rewritten. */
  function Rewritten(s: Store, b: Id, o': Operation, b': Batch, outbox: Outbox): Store
    requires b in s.batches
  {
    s.(operations := s.operations[s.batches[b].operation := o'], batches := s.batches[b := b'], outbox := outbox)
  }

  ghost predicate RewriteFits(s: Store, b: Id, o': Operation, b': Batch)
    requires b in s.batches && s.batches[b].operation in s.operations
  {
    var batch, o := s.batches[b], s.operations[s.batches[b].operation];
    && b'.id == batch.id && b'.operation == batch.operation && o'.id == o.id && o'.batch == o.batch
    && (batch.cancelRequested ==> b'.cancelRequested)
    && (TerminalBatch(batch.status) ==> b' == batch && o' == o)
  }

  lemma OperationsDiffer(s: Store, b: Id, x: Id)
    requires Links(s) && b in s.batches && x in s.batches && b != x
    ensures s.batches[b].operation != s.batches[x].operation
  {
    assert BatchLink(s, b) && BatchLink(s, x);
  }

  lemma RewriteGrows(s: Store, b: Id, o': Operation, b': Batch, outbox: Outbox)
    requires Links(s) && b in s.batches && Linked(s, b) && RewriteFits(s, b, o', b') && s.outbox.Keys <= outbox.Keys
    ensures Grows(s, Rewritten(s, b, o', b', outbox))
    ensures SameShape(s, Rewritten(s, b, o', b', outbox))
  {
    var s' := Rewritten(s, b, o', b', outbox);
    forall x | x in s.batches ensures BatchGrows(s, s', x) {
      if x != b { OperationsDiffer(s, b, x); }
    }
  }

  lemma OtherBatchesKeep(s: Store, b: Id, o': Operation, b': Batch, outbox: Outbox, x: Id)
    requires StoreInv(s) && b in s.batches && Linked(s, b)
    requires Links(Rewritten(s, b, o', b', outbox)) && Grows(s, Rewritten(s, b, o', b', outbox))
    requires x in s.batches && x != b
    ensures Linked(Rewritten(s, b, o', b', outbox), x) && BatchState(Rewritten(s, b, o', b', outbox), x)
  {
    var s' := Rewritten(s, b, o', b', outbox);
    assert BatchLink(s, x) && BatchLink(s', x) && BatchState(s, x);
    OperationsDiffer(s, b, x);
    BatchStatePersists(s, s', x);
  }

  /** The barrier has nothing to wait for. */
  ghost predicate Ready(s: Store, b: Id)
    requires Linked(s, b)
  {
    AllTerminal(JobsOf(s, b)) && AllSettled(JobsOf(s, b))
  }

  /** What `TryFinalize` makes of the store. */
  function Finalized(s: Store, b: Id, now: int): Store
    requires Linked(s, b)
  {
    var o := s.operations[s.batches[b].operation];
    var c := BarrierChange(o, s.batches[b], JobsOf(s, b));
    Rewritten(s, b, StampOperation(o, c.operation, now), StampBatch(s.batches[b], c.batch, now), AppendAll(s.outbox, c.events, now))
  }

  lemma FinalizedGrows(s: Store, b: Id, now: int)
    requires Links(s) && Linked(s, b)
    ensures Grows(s, Finalized(s, b, now)) && SameShape(s, Finalized(s, b, now))
  {
    var o := s.operations[s.batches[b].operation];
    var c := BarrierChange(o, s.batches[b], JobsOf(s, b));
    RewriteGrows(s, b, StampOperation(o, c.operation, now), StampBatch(s.batches[b], c.batch, now), AppendAll(s.outbox, c.events, now));
  }

  lemma OldRowsAlive(s: Store, s': Store)
    requires Rows(s) && forall k :: k in s.outbox ==> k in s'.outbox && s'.outbox[k] == s.outbox[k]
    ensures forall k :: k in s.outbox && s.outbox[k].event.kind.FinalizeRequested? ==> !s'.outbox[k].status.RowDead?
  {
    forall k | k in s.outbox && s.outbox[k].event.kind.FinalizeRequested? ensures !s'.outbox[k].status.RowDead? {
      assert RowShape(k, s.outbox[k]);
    }
  }

  lemma AppendOne(outbox: Outbox, e: Event, now: int)
    ensures AppendAll(outbox, [e], now) == Append(outbox, e, now)
  {
    assert AppendAll(Append(outbox, e, now), [e][1..], now) == Append(outbox, e, now);
  }

  lemma NotEndedYet(s: Store, b: Id)
    requires Rows(s) && b in s.batches && !TerminalBatch(s.batches[b].status)
    ensures BatchEnded(b) !in s.outbox
  {
  }

  /** Waiting leaves no row and ends nothing. */
  lemma WaitingBarrier(s: Store, b: Id, now: int)
    requires Linked(s, b) && BatchState(s, b) && (TerminalBatch(s.batches[b].status) || !Ready(s, b))
    ensures Finalized(s, b, now).outbox == s.outbox
    ensures BatchState(Finalized(s, b, now), b)
  {
    assert JobsOf(Finalized(s, b, now), b) == JobsOf(s, b);
  }

  /** The end of a batch: status, tally and cost are fixed and published with the one terminal row. */
  lemma EndingBarrier(s: Store, b: Id, now: int)
    requires Linked(s, b) && BatchState(s, b) && !TerminalBatch(s.batches[b].status) && Ready(s, b)
    requires BatchEnded(b) !in s.outbox && s.batches[b].id == b
    ensures var s' := Finalized(s, b, now);
            && s'.outbox.Keys == s.outbox.Keys + {BatchEnded(b)}
            && RowShape(BatchEnded(b), s'.outbox[BatchEnded(b)]) && RowMeaning(s', s'.outbox[BatchEnded(b)])
            && BatchState(s', b)
            && TerminalBatch(s'.batches[b].status) && s'.batches[b].status == EndStatus(s.batches[b], JobsOf(s, b))
  {
    EndingRow(s, b, now);
    assert JobsOf(Finalized(s, b, now), b) == JobsOf(s, b);
  }

  lemma EndingRow(s: Store, b: Id, now: int)
    requires Linked(s, b) && !TerminalBatch(s.batches[b].status) && Ready(s, b) && BatchEnded(b) !in s.outbox && s.batches[b].id == b
    ensures var s' := Finalized(s, b, now);
            && s'.outbox.Keys == s.outbox.Keys + {BatchEnded(b)}
            && RowShape(BatchEnded(b), s'.outbox[BatchEnded(b)]) && RowMeaning(s', s'.outbox[BatchEnded(b)])
  {
    var o := s.operations[s.batches[b].operation];
    var c := BarrierChange(o, s.batches[b], JobsOf(s, b));
    AppendOne(s.outbox, c.events[0], now);
    EndingChange(o, s.batches[b], JobsOf(s, b));
  }

  /** What the barrier writes when it ends a batch. */
  lemma EndingChange(o: Operation, batch: Batch, jobs: seq<Job>)
    requires !TerminalBatch(batch.status) && AllTerminal(jobs) && AllSettled(jobs)
    ensures var c := BarrierChange(o, batch, jobs);
            && |c.events| == 1 && c.events[0].key == BatchEnded(batch.id) && c.events[0].kind.BatchEvent? && c.operation.result.Some?
            && c.events[0].ending == c.operation.result
            && (var e := c.operation.result.value;
                e.batch == batch.id && e.status == c.batch.status && e.version == batch.version + 1 && e.cost == c.batch.cost)
            && TerminalBatch(c.batch.status) && c.batch != batch && c.batch.version == batch.version
  {
  }

  lemma NoNewRows(s: Store, s': Store)
    requires Rows(s) && Grows(s, s') && s'.outbox == s.outbox
    ensures Rows(s')
  {
    OldRowsAlive(s, s');
    RowsPersist(s, s');
  }

  lemma OneNewRow(s: Store, s': Store, key: OutboxKey)
    requires Rows(s) && Grows(s, s') && s'.outbox.Keys == s.outbox.Keys + {key}
    requires forall k :: k in s.outbox ==> s'.outbox[k] == s.outbox[k]
    requires RowShape(key, s'.outbox[key]) && RowMeaning(s', s'.outbox[key])
    ensures Rows(s')
  {
    OldRowsAlive(s, s');
    RowsPersist(s, s');
  }

  lemma FinalizedRows(s: Store, b: Id, now: int)
    requires Rows(s) && Linked(s, b) && BatchState(s, b) && s.batches[b].id == b && Grows(s, Finalized(s, b, now))
    ensures Rows(Finalized(s, b, now)) && BatchState(Finalized(s, b, now), b)
  {
    if TerminalBatch(s.batches[b].status) || !Ready(s, b) {
      WaitingBarrier(s, b, now);
      NoNewRows(s, Finalized(s, b, now));
    } else {
      NotEndedYet(s, b);
      EndingBarrier(s, b, now);
      OneNewRow(s, Finalized(s, b, now), BatchEnded(b));
    }
  }

  lemma FinalizedKeeps(s: Store, b: Id, now: int)
    requires StoreInv(s) && Linked(s, b)
    ensures StoreInv(Finalized(s, b, now)) && Grows(s, Finalized(s, b, now))
  {
    var s' := Finalized(s, b, now);
    FinalizedGrows(s, b, now);
    LinksPersist(s, s');
    assert BatchLink(s, b) && BatchState(s, b);
    FinalizedRows(s, b, now);
    forall x | x in s'.batches ensures BatchState(s', x) {
      if x != b { OtherBatchesKeep(s, b, s'.operations[s.batches[b].operation], s'.batches[b], s'.outbox, x); }
    }
  }

  lemma BarrierKeeps(s: Store, b: Id, now: int)
    requires StoreInv(s) && b in s.batches
    ensures Linked(s, b) && TryFinalize(s, b, now) == Ok(Finalized(s, b, now))
    ensures StoreInv(Finalized(s, b, now)) && Grows(s, Finalized(s, b, now))
  {
    BarrierEffect(s, b, now);
    FinalizedKeeps(s, b, now);
  }

  // ---------------------------------------------------------------- cancel

  ghost predicate Cancels(s: Store, b: Id)
    requires Linked(s, b)
  {
    !TerminalBatch(s.batches[b].status) && !s.batches[b].cancelRequested
  }

  function CancelledNow(job: Job, now: int): Job { StampBatchJob(job, CancelledJob(job), now) }

  function CancelledNowAll(jobs: seq<Job>, now: int): (r: seq<Job>)
    ensures |r| == |jobs| && forall i :: 0 <= i < |r| ==> r[i] == CancelledNow(jobs[i], now)
  {
    StampBatchJobs(jobs, CancelledJobs(jobs), now)
  }

  function CancelEvents(s: Store, b: Id): seq<Event>
    requires Linked(s, b)
  {
    var jobs := JobsOf(s, b);
    EnsureAll(CancelChange(s.operations[s.batches[b].operation], s.batches[b], jobs).events, jobs, CancelledJobs(jobs))
  }

  /** What `CancelBatch` makes of the store the first time. */
  function WithCancel(s: Store, b: Id, now: int): Store
    requires Linked(s, b)
  {
    var batch := s.batches[b];
    s.(batches := s.batches[b := batch.(cancelRequested := true, status := BatchCancelling, version := batch.version + 1)],
       jobs := PutJobs(s.jobs, CancelledNowAll(JobsOf(s, b), now)),
       outbox := AppendAll(s.outbox, CancelEvents(s, b), now))
  }

  lemma JobsOfIds(s: Store, b: Id)
    requires Links(s) && b in s.batches
    ensures Linked(s, b)
    ensures DistinctIds(JobsOf(s, b))
    ensures forall i :: 0 <= i < |JobsOf(s, b)| ==> JobsOf(s, b)[i].spec.id == s.jobIds[b][i]
    ensures forall i :: 0 <= i < |JobsOf(s, b)| ==> JobsOf(s, b)[i].spec.id in s.jobs && s.jobs[JobsOf(s, b)[i].spec.id] == JobsOf(s, b)[i]
    ensures forall i :: 0 <= i < |JobsOf(s, b)| ==> JobsOf(s, b)[i].spec.batch == b
  {
    assert BatchLink(s, b);
    forall i | 0 <= i < |JobsOf(s, b)| ensures JobsOf(s, b)[i].spec.id == s.jobIds[b][i] { assert JobLink(s, s.jobIds[b][i]); }
  }

  lemma CancelAllowed(o: Operation, b: Batch, jobs: seq<Job>)
    requires b.status.BatchCancelling? ==> b.cancelRequested
    ensures Allowed(o, b, jobs, CancelChange(o, b, jobs))
  {
  }

  /** A repeated cancel, or one after the end, changes nothing. */
  lemma IdleCancel(s: Store, b: Id, now: int)
    requires Links(s) && b in s.batches && Linked(s, b) && !Cancels(s, b)
    requires s.batches[b].status.BatchCancelling? ==> s.batches[b].cancelRequested
    ensures CancelBatch(s, b, now) == Ok(s)
  {
    var batch, o, jobs := s.batches[b], s.operations[s.batches[b].operation], JobsOf(s, b);
    CancelAllowed(o, batch, jobs);
    JobsOfIds(s, b);
    assert StampBatchJobs(jobs, jobs, now) == jobs;
    PutSame(s.jobs, jobs);
    EnsureAllSame([], jobs);
    assert s.operations[batch.operation := o] == s.operations && s.batches[b := batch] == s.batches;
  }

  lemma FirstCancel(s: Store, b: Id, now: int)
    requires Linked(s, b) && Cancels(s, b)
    requires s.batches[b].status.BatchCancelling? ==> s.batches[b].cancelRequested
    ensures CancelBatch(s, b, now) == Ok(WithCancel(s, b, now))
  {
    var batch, o, jobs := s.batches[b], s.operations[s.batches[b].operation], JobsOf(s, b);
    CancelAllowed(o, batch, jobs);
    assert s.operations[batch.operation := o] == s.operations;
  }

  lemma CancelledJobGrows(job: Job, now: int)
    ensures JobGrows(job, CancelledNow(job, now))
  {
  }

  lemma PutCancelled(m: map<Id, Job>, jobs: seq<Job>, now: int, i: nat)
    requires DistinctIds(jobs) && i < |jobs|
    ensures jobs[i].spec.id in PutJobs(m, CancelledNowAll(jobs, now))
    ensures PutJobs(m, CancelledNowAll(jobs, now))[jobs[i].spec.id] == CancelledNow(jobs[i], now)
  {
    var after := CancelledNowAll(jobs, now);
    assert forall k :: 0 <= k < |after| ==> after[k].spec.id == jobs[k].spec.id;
    PutJobsFinds(m, after, i);
  }

  lemma PutCancelledOther(m: map<Id, Job>, jobs: seq<Job>, now: int, id: Id)
    requires id in m && forall i :: 0 <= i < |jobs| ==> jobs[i].spec.id != id
    ensures id in PutJobs(m, CancelledNowAll(jobs, now)) && PutJobs(m, CancelledNowAll(jobs, now))[id] == m[id]
  {
    var after := CancelledNowAll(jobs, now);
    assert forall k :: 0 <= k < |after| ==> after[k].spec.id == jobs[k].spec.id;
    PutJobsOther(m, after, id);
  }

  /** The jobs of the batch take the cancel step; all others stay. */
  lemma CancelJobs(s: Store, b: Id, now: int, id: Id)
    requires Links(s) && b in s.batches && Linked(s, b) && id in s.jobs
    ensures id in WithCancel(s, b, now).jobs
    ensures WithCancel(s, b, now).jobs[id] == if s.jobs[id].spec.batch == b then CancelledNow(s.jobs[id], now) else s.jobs[id]
  {
    JobsOfIds(s, b);
    assert JobLink(s, id);
    var jobs := JobsOf(s, b);
    if s.jobs[id].spec.batch == b {
      var i :| 0 <= i < |s.jobIds[b]| && s.jobIds[b][i] == id;
      PutCancelled(s.jobs, jobs, now, i);
    } else {
      PutCancelledOther(s.jobs, jobs, now, id);
    }
  }

  lemma {:induction false} PutKeys(m: map<Id, Job>, jobs: seq<Job>)
    requires forall i :: 0 <= i < |jobs| ==> jobs[i].spec.id in m
    ensures PutJobs(m, jobs).Keys == m.Keys
    decreases |jobs|
  {
    if jobs != [] { PutKeys(m, jobs[..|jobs| - 1]); }
  }

  ghost predicate CancelledRecords(s: Store, s': Store, b: Id)
    requires b in s.batches
  {
    && s'.jobIds == s.jobIds && s'.operations == s.operations
    && s'.batches == s.batches[b := s.batches[b].(cancelRequested := true, status := BatchCancelling, version := s.batches[b].version + 1)]
    && s.outbox.Keys <= s'.outbox.Keys
  }

  ghost predicate CancelledMembers(jobs: map<Id, Job>, jobs': map<Id, Job>, b: Id, now: int) {
    && jobs'.Keys == jobs.Keys
    && (forall id :: id in jobs ==> jobs'[id] == if jobs[id].spec.batch == b then CancelledNow(jobs[id], now) else jobs[id])
  }

  /** The effect of a first cancel, field by field. */
  ghost predicate CancelShape(s: Store, s': Store, b: Id, now: int)
    requires b in s.batches
  {
    CancelledRecords(s, s', b) && CancelledMembers(s.jobs, s'.jobs, b, now)
  }

  lemma CancelKeys(s: Store, b: Id, now: int)
    requires Links(s) && b in s.batches && Linked(s, b)
    ensures WithCancel(s, b, now).jobs.Keys == s.jobs.Keys
  {
    JobsOfIds(s, b);
    var jobs := JobsOf(s, b);
    var after := CancelledNowAll(jobs, now);
    forall i | 0 <= i < |after| ensures after[i].spec.id in s.jobs { assert after[i].spec.id == jobs[i].spec.id; }
    PutKeys(s.jobs, after);
  }

  lemma CancelMembers(s: Store, b: Id, now: int)
    requires Links(s) && b in s.batches && Linked(s, b)
    ensures CancelledMembers(s.jobs, WithCancel(s, b, now).jobs, b, now)
  {
    CancelKeys(s, b, now);
    var jobs' := WithCancel(s, b, now).jobs;
    forall id | id in s.jobs ensures jobs'[id] == if s.jobs[id].spec.batch == b then CancelledNow(s.jobs[id], now) else s.jobs[id] {
      CancelJobs(s, b, now, id);
    }
  }

  lemma CancelHasShape(s: Store, b: Id, now: int)
    requires Links(s) && b in s.batches && Linked(s, b)
    ensures CancelShape(s, WithCancel(s, b, now), b, now)
  {
    CancelMembers(s, b, now);
  }

  lemma CancelSameShape(s: Store, s': Store, b: Id, now: int)
    requires b in s.batches && CancelShape(s, s', b, now)
    ensures SameShape(s, s')
  {
    forall id | id in s.jobs ensures s'.jobs[id].spec == s.jobs[id].spec && s'.jobs[id].version >= s.jobs[id].version {
      CancelledJobGrows(s.jobs[id], now);
    }
  }

  lemma CancelGrows(s: Store, s': Store, b: Id, now: int)
    requires b in s.batches && Linked(s, b) && Cancels(s, b) && CancelShape(s, s', b, now)
    ensures Grows(s, s')
  {
    forall id | id in s.jobs ensures id in s'.jobs && JobGrows(s.jobs[id], s'.jobs[id]) {
      CancelledJobGrows(s.jobs[id], now);
    }
    forall x | x in s.batches ensures BatchGrows(s, s', x) {}
  }

  ghost predicate CancelEventFits(s: Store, b: Id, e: Event) {
    || ((e.key.OperationCancelRequested? || e.key.JobCancelRequested?) && !e.kind.FinalizeRequested?)
    || (e.key == CancelWake(b) && e.kind.FinalizeRequested? && e.batch == b)
    || (e.key.JobLifecycle? && e.kind.JobEvent? && e.key.job in s.jobs && s.jobs[e.key.job].spec.batch == b
        && CancelledJob(s.jobs[e.key.job]) != s.jobs[e.key.job] && e.key.version == s.jobs[e.key.job].version + 1)
  }

  lemma CancelBaseEventsFit(s: Store, b: Id, o: Operation, batch: Batch, jobs: seq<Job>, e: Event)
    requires batch.id == b && e in CancelChange(o, batch, jobs).events
    ensures CancelEventFits(s, b, e)
  {
    var events := CancelChange(o, batch, jobs).events;
    assert e == events[0] || e in CancelNotices(jobs) || e == events[|events| - 1];
  }

  lemma CancelLifecycleFits(s: Store, b: Id, jobs: seq<Job>, e: Event)
    requires LifecycleOf(e, jobs, CancelledJobs(jobs))
    requires forall i :: 0 <= i < |jobs| ==> jobs[i].spec.id in s.jobs && s.jobs[jobs[i].spec.id] == jobs[i] && jobs[i].spec.batch == b
    ensures CancelEventFits(s, b, e)
  {
    var i :| 0 <= i < |jobs| && jobs[i] != CancelledJobs(jobs)[i]
      && e == JobEventFor(JobLifecycle(CancelledJobs(jobs)[i].spec.id, CancelledJobs(jobs)[i].version + 1), CancelledJobs(jobs)[i]);
  }

  lemma CancelEventsFit(s: Store, b: Id, e: Event)
    requires Links(s) && b in s.batches && Linked(s, b) && Cancels(s, b) && e in CancelEvents(s, b)
    ensures CancelEventFits(s, b, e)
  {
    assert s.batches[b].id == b by { assert BatchLink(s, b); }
    var batch, o, jobs := s.batches[b], s.operations[s.batches[b].operation], JobsOf(s, b);
    var events := CancelChange(o, batch, jobs).events;
    EnsureAllAdds(events, jobs, CancelledJobs(jobs));
    if e in events {
      CancelBaseEventsFit(s, b, o, batch, jobs, e);
    } else {
      JobsOfIds(s, b);
      CancelLifecycleFits(s, b, jobs, e);
    }
  }

  lemma CancelRowMeans(s: Store, b: Id, now: int, row: Row)
    requires Links(s) && b in s.batches && Linked(s, b) && CancelEventFits(s, b, row.event)
    ensures RowMeaning(WithCancel(s, b, now), row)
  {
    if row.event.key.JobLifecycle? { CancelJobs(s, b, now, row.event.key.job); }
  }

  lemma CancelRows(s: Store, b: Id, now: int)
    requires Links(s) && Rows(s) && b in s.batches && Linked(s, b) && Cancels(s, b) && Grows(s, WithCancel(s, b, now))
    ensures Rows(WithCancel(s, b, now))
  {
    var s' := WithCancel(s, b, now);
    forall k | k in s'.outbox && k !in s.outbox ensures RowShape(k, s'.outbox[k]) && RowMeaning(s', s'.outbox[k]) {
      CancelEventsFit(s, b, s'.outbox[k].event);
      CancelRowMeans(s, b, now, s'.outbox[k]);
    }
    OldRowsAlive(s, s');
    RowsPersist(s, s');
  }

  lemma CancelledBatchState(s: Store, s': Store, b: Id, now: int)
    requires b in s.batches && Linked(s, b) && Linked(s', b) && Cancels(s, b) && CancelShape(s, s', b, now) && BatchState(s, b)
    ensures BatchState(s', b)
  {
  }

  lemma CancelBatches(s: Store, s': Store, b: Id, now: int)
    requires StoreInv(s) && b in s.batches && Linked(s, b) && Cancels(s, b) && CancelShape(s, s', b, now)
    requires Links(s') && Grows(s, s')
    ensures forall x :: x in s'.batches ==> BatchState(s', x)
  {
    forall x | x in s'.batches ensures BatchState(s', x) {
      assert BatchLink(s, x) && BatchLink(s', x) && BatchState(s, x);
      if x != b { BatchStatePersists(s, s', x); } else { CancelledBatchState(s, s', b, now); }
    }
  }

  lemma CancelKeeps(s: Store, b: Id, now: int)
    requires StoreInv(s) && b in s.batches && Linked(s, b) && Cancels(s, b)
    ensures StoreInv(WithCancel(s, b, now)) && Grows(s, WithCancel(s, b, now))
  {
    CancelHasShape(s, b, now);
    CancelGrows(s, WithCancel(s, b, now), b, now);
    CancelSameShape(s, WithCancel(s, b, now), b, now);
    LinksPersist(s, WithCancel(s, b, now));
    CancelRows(s, b, now);
    CancelBatches(s, WithCancel(s, b, now), b, now);
  }

  // ---------------------------------------------------------------- runs

  lemma CancelPre(s: Store, b: Id)
    requires StoreInv(s) && b in s.batches
    ensures Linked(s, b) && Links(s)
    ensures s.batches[b].status.BatchCancelling? ==> s.batches[b].cancelRequested
  {
    assert BatchLink(s, b) && BatchState(s, b);
  }

  lemma CancelBatchKeeps(s: Store, b: Id, now: int)
    requires StoreInv(s) && b in s.batches
    ensures CancelBatch(s, b, now).Ok?
    ensures StoreInv(CancelBatch(s, b, now).value) && Grows(s, CancelBatch(s, b, now).value)
  {
    CancelPre(s, b);
    if Cancels(s, b) {
      FirstCancel(s, b, now);
      CancelKeeps(s, b, now);
    } else {
      IdleCancel(s, b, now);
      GrowsRefl(s);
    }
  }

  lemma DoCreateKeeps(s: Store, c: CreateCommand, now: int)
    requires StoreInv(s)
    ensures StoreInv(Do(s, Create(c, now))) && Grows(s, Do(s, Create(c, now)))
  {
    GrowsRefl(s);
    var r := CreateWorkflow(s, c, now);
    if r.Ok? && r.value.1 {
      CreatedWasAllowed(s, c, now);
      CreateKeeps(s, c, now);
    }
  }

  lemma DoMutateKeeps(s: Store, job: Id, expected: int, m: Mutation, now: int)
    requires StoreInv(s)
    ensures StoreInv(Do(s, Mutate(job, expected, m, now))) && Grows(s, Do(s, Mutate(job, expected, m, now)))
  {
    GrowsRefl(s);
    if MutateJob(s, job, expected, m, now).Ok? { MutateKeeps(s, job, expected, m, now); }
  }

  lemma DoRenewKeeps(s: Store, job: Id, owner: string, until: int, now: int)
    requires StoreInv(s)
    ensures StoreInv(Do(s, Renew(job, owner, until, now))) && Grows(s, Do(s, Renew(job, owner, until, now)))
  {
    GrowsRefl(s);
    if RenewJobLease(s, job, owner, until, now).Ok? {
      RenewTouches(s, job, owner, until, now);
      TouchKeeps(s, RenewJobLease(s, job, owner, until, now).value);
    }
  }

  lemma DoAcknowledgeKeeps(s: Store, key: OutboxKey)
    requires StoreInv(s)
    ensures StoreInv(Do(s, Acknowledge(key))) && Grows(s, Do(s, Acknowledge(key)))
  {
    GrowsRefl(s);
    if MarkPublished(s, key).Ok? {
      PublishTouches(s, key);
      TouchKeeps(s, MarkPublished(s, key).value);
    }
  }

  lemma DoRejectKeeps(s: Store, key: OutboxKey, now: int)
    requires StoreInv(s)
    ensures StoreInv(Do(s, Reject(key, now))) && Grows(s, Do(s, Reject(key, now)))
  {
    GrowsRefl(s);
    if key in s.outbox {
      RejectTouches(s, key, now);
      TouchKeeps(s, MarkFailed(s, key, now, MaxAttemptsFor(s.outbox[key])).value);
    }
  }

  lemma DoBatchKeeps(s: Store, b: Id, now: int)
    requires StoreInv(s)
    ensures StoreInv(Do(s, Barrier(b, now))) && Grows(s, Do(s, Barrier(b, now)))
    ensures StoreInv(Do(s, Cancel(b, now))) && Grows(s, Do(s, Cancel(b, now)))
  {
    GrowsRefl(s);
    if b in s.batches {
      BarrierKeeps(s, b, now);
      CancelBatchKeeps(s, b, now);
    }
  }

  lemma DoBarrierIs(s: Store, b: Id, now: int)
    ensures Do(s, Barrier(b, now)) == OrElse(TryFinalize(s, b, now), s)
  {
  }

  lemma DoCreateIs(s: Store, c: CreateCommand, now: int)
    ensures Do(s, Create(c, now)) == var r := CreateWorkflow(s, c, now); if r.Ok? then r.value.0 else s
  {
  }

  /** Every operation keeps the invariant and only lets the store grow. */
  lemma DoKeeps(s: Store, op: StoreOp)
    requires StoreInv(s)
    ensures StoreInv(Do(s, op)) && Grows(s, Do(s, op))
  {
    match op {
      case Create(c, now) => DoCreateKeeps(s, c, now);
      case Mutate(job, expected, m, now) => DoMutateKeeps(s, job, expected, m, now);
      case Renew(job, owner, until, now) => DoRenewKeeps(s, job, owner, until, now);
      case Barrier(b, now) => DoBatchKeeps(s, b, now);
      case Cancel(b, now) => DoBatchKeeps(s, b, now);
      case Acknowledge(key) => DoAcknowledgeKeeps(s, key);
      case Reject(key, now) => DoRejectKeeps(s, key, now);
      case Nothing => GrowsRefl(s);
    }
  }

  ghost function RunOps(s: Store, ops: seq<StoreOp>): Store {
    if ops == [] then s else Do(RunOps(s, ops[..|ops| - 1]), ops[|ops| - 1])
  }

  /** From the empty store, every sequence of operations keeps the invariant. */
  lemma {:induction false} RunKeeps(ops: seq<StoreOp>)
    ensures StoreInv(RunOps(EMPTY, ops))
    decreases |ops|
  {
    if ops != [] {
      RunKeeps(ops[..|ops| - 1]);
      DoKeeps(RunOps(EMPTY, ops[..|ops| - 1]), ops[|ops| - 1]);
    }
  }
}
