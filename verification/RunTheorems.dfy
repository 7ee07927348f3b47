/** What every run of the whole system shows of the stored records, however its threads overlap. */
module RunTheorems {
  import opened Basics
  import opened GenerationModels
  import opened JobMutations
  import opened WorkflowStore
  import opened BatchTransactions
  import opened StoreInvariants
  import opened Workers
  import opened World
  import opened Snapshots
  import opened StoredChanges

  // ---------------------------------------------------------------- growth along a run

  lemma BatchGrowsTrans(s1: Store, s2: Store, s3: Store, b: Id)
    requires b in s1.batches && BatchGrows(s1, s2, b) && BatchGrows(s2, s3, b)
    ensures BatchGrows(s1, s3, b)
  {
  }

  lemma GrowsTrans(s1: Store, s2: Store, s3: Store)
    requires Grows(s1, s2) && Grows(s2, s3)
    ensures Grows(s1, s3)
  {
    forall id | id in s1.jobs ensures id in s3.jobs && JobGrows(s1.jobs[id], s3.jobs[id]) {
      JobGrowsTrans(s1.jobs[id], s2.jobs[id], s3.jobs[id]);
    }
    forall b | b in s1.batches ensures BatchGrows(s1, s3, b) { BatchGrowsTrans(s1, s2, s3, b); }
  }

  lemma {:induction false} RunGrows(labels: seq<Label>, i: nat)
    requires i <= |labels|
    ensures Grows(Run(labels[..i]).store, Run(labels).store)
    decreases |labels|
  {
    if i == |labels| {
      assert labels[..i] == labels;
      GrowsRefl(Run(labels).store);
    } else {
      var shorter := labels[..|labels| - 1];
      assert shorter[..i] == labels[..i];
      RunGrows(shorter, i);
      RunCoherent(shorter);
      StepCoherent(Run(shorter), labels[|labels| - 1]);
      GrowsTrans(Run(labels[..i]).store, Run(shorter).store, Run(labels).store);
    }
  }

  /**
   Versioned store: between any two moments of a run, versions only grow, equal versions mean equal content up to
   lease expiry and update time, terminal statuses stay, and recorded usage and price never change.
   */
  lemma VersionedJobs(labels: seq<Label>, i: nat, id: Id)
    requires i <= |labels| && id in Run(labels[..i]).store.jobs
    ensures id in Run(labels).store.jobs
    ensures var a, b := Run(labels[..i]).store.jobs[id], Run(labels).store.jobs[id];
            && a.version <= b.version
            && (a.version == b.version ==>
                  a.(lease := a.lease.(until := b.lease.until), updatedAt := b.updatedAt) == b)
            && (Terminal(a) ==> b.status == a.status)
            && (a.usage.Some? ==> b.usage == a.usage) && (a.quote.Some? ==> b.quote == a.quote)
  {
    RunGrows(labels, i);
    var a, b := Run(labels[..i]).store.jobs[id], Run(labels).store.jobs[id];
    assert JobGrows(a, b);
    if a.version == b.version { assert Stamped(a) == Stamped(b); }
  }

  // ---------------------------------------------------------------- single batch ending

  /**
   The batch is terminal exactly when its one terminal row exists; the row's snapshot carries the stored status,
   version and cost, and the operation carries the same snapshot and the matching status.
   */
  ghost predicate EndingTold(s: Store, b: Id)
    requires b in s.batches
  {
    var batch := s.batches[b];
    && batch.operation in s.operations
    && (TerminalBatch(batch.status) <==> BatchEnded(b) in s.outbox)
    && (TerminalBatch(batch.status) <==> TerminalOperation(s.operations[batch.operation].status))
    && (BatchEnded(b) in s.outbox ==> s.outbox[BatchEnded(b)].event.ending.Some? && EndingRecorded(s, b, s.outbox[BatchEnded(b)].event.ending.value))
  }

  ghost predicate EndingRecorded(s: Store, b: Id, e: Ending)
    requires b in s.batches && s.batches[b].operation in s.operations
  {
    var batch, o := s.batches[b], s.operations[s.batches[b].operation];
    && e.batch == b && e.status == batch.status && e.version == batch.version && e.cost == batch.cost
    && o.result == Some(e) && o.status == OperationStatusFor(batch.status)
  }

  lemma InvTellsEnding(s: Store, b: Id)
    requires StoreInv(s) && b in s.batches
    ensures EndingTold(s, b)
  {
    assert BatchLink(s, b) && BatchState(s, b);
    if BatchEnded(b) in s.outbox { RowTellsEnding(s, b); }
  }

  lemma RowTellsEnding(s: Store, b: Id)
    requires Rows(s) && b in s.batches && BatchEnded(b) in s.outbox
    ensures TerminalBatch(s.batches[b].status) && s.outbox[BatchEnded(b)].event.ending.Some?
    ensures EndingMatches(s, b, s.outbox[BatchEnded(b)].event.ending.value)
  {
    assert RowShape(BatchEnded(b), s.outbox[BatchEnded(b)]) && RowMeaning(s, s.outbox[BatchEnded(b)]);
  }

  /** At every moment of every run. */
  lemma TerminalIffEnded(labels: seq<Label>, b: Id)
    requires b in Run(labels).store.batches
    ensures EndingTold(Run(labels).store, b)
  {
    RunCoherent(labels);
    InvTellsEnding(Run(labels).store, b);
  }

  /** Once a batch has ended, neither it nor its operation ever changes. */
  lemma EndedStays(labels: seq<Label>, i: nat, b: Id)
    requires i <= |labels| && b in Run(labels[..i]).store.batches && TerminalBatch(Run(labels[..i]).store.batches[b].status)
    ensures var s, s' := Run(labels[..i]).store, Run(labels).store;
            && b in s'.batches && s'.batches[b] == s.batches[b]
            && s.batches[b].operation in s.operations && s.batches[b].operation in s'.operations
            && s'.operations[s.batches[b].operation] == s.operations[s.batches[b].operation]
  {
    RunCoherent(labels[..i]);
    RunGrows(labels, i);
    assert BatchLink(Run(labels[..i]).store, b);
    assert BatchGrows(Run(labels[..i]).store, Run(labels).store, b);
  }

  // ---------------------------------------------------------------- every public change is announced

  /** A row that tells the session about this job. */
  ghost predicate Announces(row: Row, id: Id) { SignalsJob(row.event) && row.event.job == id }

  /** The events of one mutation announce a public change, under a key that no earlier row carries. */
  ghost predicate FreshSignal(e: Event, before: Job) {
    && SignalsJob(e) && e.job == before.spec.id
    && (e.key == JobLifecycle(before.spec.id, before.version + 1)
        || (!Terminal(before) && (e.key == JobSucceeded(before.spec.id) || (e.key.JobFailed? && e.key.job == before.spec.id) || e.key == JobCancelled(before.spec.id))))
  }

  lemma WorkerSignalsAreFresh(m: WorkerMutation, a: Job, now: int, e: Event)
    requires ApplyWorker(m, a, now).Ok? && e in ApplyWorker(m, a, now).value.events && SignalsJob(e)
    requires JobTransition(a.status, ApplyWorker(m, a, now).value.job.status)
    ensures FreshSignal(e, a)
  {
  }

  lemma FinalSignalsAreFresh(m: FinalMutation, a: Job, now: int, e: Event)
    requires ApplyFinal(m, a, now).Ok? && e in ApplyFinal(m, a, now).value.events && SignalsJob(e)
    requires JobTransition(a.status, ApplyFinal(m, a, now).value.job.status)
    ensures FreshSignal(e, a)
  {
  }

  lemma CompSignalsNothing(m: CompMutation, a: Job, now: int, e: Event)
    requires ApplyComp(m, a, now).Ok? && e in ApplyComp(m, a, now).value.events
    ensures !SignalsJob(e)
  {
  }

  lemma SignalsAreFresh(m: Mutation, a: Job, now: int, e: Event)
    requires Apply(m, a, now).Ok? && e in Apply(m, a, now).value.events && SignalsJob(e)
    requires JobTransition(a.status, Apply(m, a, now).value.job.status)
    ensures FreshSignal(e, a)
  {
    match m {
      case ByWorker(w) => WorkerSignalsAreFresh(w, a, now, e);
      case ByFinalizer(f) => FinalSignalsAreFresh(f, a, now, e);
      case ByCompensation(c) => CompSignalsNothing(c, a, now, e);
    }
  }

  lemma MutationSignals(m: Mutation, a: Job, now: int) returns (e: Event)
    requires Apply(m, a, now).Ok?
    requires var b := Apply(m, a, now).value.job; a.status != b.status && JobTransition(a.status, b.status) && PublicStatus(b.status)
    ensures e in EnsureLifecycle(Apply(m, a, now).value.events, a, Apply(m, a, now).value.job, true)
    ensures FreshSignal(e, a)
  {
    var c := Apply(m, a, now).value;
    MutationFits(m, a, now);
    if exists e :: e in c.events && SignalsJob(e) {
      e :| e in c.events && SignalsJob(e);
      SignalsAreFresh(m, a, now, e);
    } else {
      e := JobEventFor(JobLifecycle(c.job.spec.id, c.job.version + 1), c.job);
    }
  }

  lemma FreshKeyAbsent(s: Store, id: Id, e: Event)
    requires Rows(s) && id in s.jobs && s.jobs[id].spec.id == id && FreshSignal(e, s.jobs[id])
    ensures e.key !in s.outbox
  {
  }

  predicate SignalKey(k: OutboxKey) { k.JobLifecycle? || k.JobSucceeded? || k.JobFailed? || k.JobCancelled? }

  ghost predicate KeysSignal(events: seq<Event>, id: Id) {
    forall e :: e in events && SignalKey(e.key) ==> SignalsJob(e) && e.job == id
  }

  lemma WorkerKeysSignal(m: WorkerMutation, a: Job, now: int)
    requires ApplyWorker(m, a, now).Ok?
    ensures KeysSignal(ApplyWorker(m, a, now).value.events, a.spec.id)
  {
  }

  lemma FinalKeysSignal(m: FinalMutation, a: Job, now: int)
    requires ApplyFinal(m, a, now).Ok?
    ensures KeysSignal(ApplyFinal(m, a, now).value.events, a.spec.id)
  {
  }

  lemma CompKeysSignal(m: CompMutation, a: Job, now: int)
    requires ApplyComp(m, a, now).Ok?
    ensures KeysSignal(ApplyComp(m, a, now).value.events, a.spec.id)
  {
  }

  lemma MutationKeysSignal(m: Mutation, a: Job, now: int)
    requires Apply(m, a, now).Ok?
    ensures KeysSignal(Apply(m, a, now).value.events, a.spec.id)
  {
    match m {
      case ByWorker(w) => WorkerKeysSignal(w, a, now);
      case ByFinalizer(f) => FinalKeysSignal(f, a, now);
      case ByCompensation(c) => CompKeysSignal(c, a, now);
    }
  }

  lemma SignalKeysSignal(m: Mutation, a: Job, now: int)
    requires Apply(m, a, now).Ok?
    ensures KeysSignal(EnsureLifecycle(Apply(m, a, now).value.events, a, Apply(m, a, now).value.job, true), a.spec.id)
  {
    MutationKeysSignal(m, a, now);
    MutationFits(m, a, now);
    var c := Apply(m, a, now).value;
    var extra := JobEventFor(JobLifecycle(c.job.spec.id, c.job.version + 1), c.job);
    assert SignalsJob(extra) && extra.job == a.spec.id;
  }

  /** A step announces the change of this job with a row that was not there before. */
  ghost predicate Announced(o: Outbox, o': Outbox, id: Id) {
    exists k :: k !in o && k in o' && Announces(o'[k], id)
  }

  lemma MutateAnnounces(s: Store, id: Id, expected: int, m: Mutation, now: int)
    requires Rows(s) && MutateJob(s, id, expected, m, now).Ok? && s.jobs[id].spec.id == id
    requires var b := MutateJob(s, id, expected, m, now).value.1; b.status != s.jobs[id].status && PublicStatus(b.status)
    ensures Announced(s.outbox, MutateJob(s, id, expected, m, now).value.0.outbox, id)
  {
    var a := s.jobs[id];
    var c := Apply(m, a, now).value;
    var events := EnsureLifecycle(c.events, a, c.job, true);
    var e := MutationSignals(m, a, now);
    FreshKeyAbsent(s, id, e);
    var o' := AppendAll(s.outbox, events, now);
    var i :| 0 <= i < |events| && events[i] == e;
    assert events[i].key in o';
    SignalKeysSignal(m, a, now);
    assert Announces(o'[e.key], id);
  }

  lemma {:induction false} EnsureAllIncludes(events: seq<Event>, before: seq<Job>, after: seq<Job>, i: nat)
    requires |before| == |after| && i < |after| && DistinctIds(after)
    requires before[i].status != after[i].status && PublicStatus(after[i].status)
    requires forall e :: e in events ==> !SignalsJob(e)
    ensures JobEventFor(JobLifecycle(after[i].spec.id, after[i].version + 1), after[i]) in EnsureAll(events, before, after)
    decreases |after|
  {
    var n := |after| - 1;
    var shorter := EnsureAll(events, before[..n], after[..n]);
    if i < n {
      EnsureAllIncludes(events, before[..n], after[..n], i);
    } else {
      EnsureAllAdds(events, before[..n], after[..n]);
      assert forall e :: e in shorter && SignalsJob(e) ==> e.job != after[n].spec.id;
    }
  }

  lemma CancelEventsQuiet(o: Operation, batch: Batch, jobs: seq<Job>, e: Event)
    requires e in CancelChange(o, batch, jobs).events
    ensures !SignalsJob(e) && !e.key.JobLifecycle?
  {
    var events := CancelChange(o, batch, jobs).events;
    assert e == events[0] || e in CancelNotices(jobs) || e == events[|events| - 1];
  }

  lemma CancelEventsAnnounce(s: Store, b: Id, i: nat)
    requires Linked(s, b) && Cancels(s, b) && DistinctIds(JobsOf(s, b)) && i < |JobsOf(s, b)|
    requires CancelledJob(JobsOf(s, b)[i]).status != JobsOf(s, b)[i].status
    ensures var j := JobsOf(s, b)[i]; exists e :: e in CancelEvents(s, b) && e.key == JobLifecycle(j.spec.id, j.version + 1)
    ensures forall e :: e in CancelEvents(s, b) && e.key.JobLifecycle? ==> SignalsJob(e) && e.job == e.key.job
  {
    var batch, o, jobs := s.batches[b], s.operations[s.batches[b].operation], JobsOf(s, b);
    var events, after := CancelChange(o, batch, jobs).events, CancelledJobs(jobs);
    forall e | e in events ensures !SignalsJob(e) && !e.key.JobLifecycle? { CancelEventsQuiet(o, batch, jobs, e); }
    assert forall k :: 0 <= k < |jobs| ==> after[k].spec.id == jobs[k].spec.id;
    EnsureAllIncludes(events, jobs, after, i);
    EnsureAllAdds(events, jobs, after);
    assert JobEventFor(JobLifecycle(after[i].spec.id, after[i].version + 1), after[i]).key == JobLifecycle(jobs[i].spec.id, jobs[i].version + 1);
  }

  lemma AppendsRow(o: Outbox, events: seq<Event>, now: int, k: OutboxKey)
    requires k !in o && exists e :: e in events && e.key == k
    ensures k in AppendAll(o, events, now) && AppendAll(o, events, now)[k].event in events && AppendAll(o, events, now)[k].event.key == k
  {
    var e :| e in events && e.key == k;
    var i :| 0 <= i < |events| && events[i] == e;
    assert events[i].key in AppendAll(o, events, now);
  }

  lemma LifecycleAbsent(s: Store, id: Id)
    requires Rows(s) && id in s.jobs
    ensures JobLifecycle(id, s.jobs[id].version + 1) !in s.outbox
  {
  }

  lemma LifecycleAnnounces(o: Outbox, events: seq<Event>, now: int, id: Id, n: int)
    requires JobLifecycle(id, n) !in o && exists e :: e in events && e.key == JobLifecycle(id, n)
    requires forall e :: e in events && e.key.JobLifecycle? ==> SignalsJob(e) && e.job == e.key.job
    ensures Announced(o, AppendAll(o, events, now), id)
  {
    var k := JobLifecycle(id, n);
    AppendsRow(o, events, now, k);
    assert Announces(AppendAll(o, events, now)[k], id);
  }

  lemma JobPosition(s: Store, id: Id) returns (i: nat)
    requires Links(s) && id in s.jobs
    ensures var b := s.jobs[id].spec.batch; b in s.batches && Linked(s, b) && i < |JobsOf(s, b)| && JobsOf(s, b)[i] == s.jobs[id]
  {
    assert JobLink(s, id);
    var b := s.jobs[id].spec.batch;
    JobsOfIds(s, b);
    i :| 0 <= i < |s.jobIds[b]| && s.jobIds[b][i] == id;
  }

  /** The lifecycle event of a job that the cancel command ends is among its events, and such events announce. */
  ghost predicate CancelTells(events: seq<Event>, id: Id, n: int) {
    && (exists e :: e in events && e.key == JobLifecycle(id, n))
    && (forall e :: e in events && e.key.JobLifecycle? ==> SignalsJob(e) && e.job == e.key.job)
  }

  lemma CancelTellsOf(s: Store, id: Id)
    requires Links(s) && id in s.jobs && s.jobs[id].spec.id == id
    requires var b := s.jobs[id].spec.batch; Linked(s, b) && Cancels(s, b)
    requires CancelledJob(s.jobs[id]).status != s.jobs[id].status
    ensures CancelTells(CancelEvents(s, s.jobs[id].spec.batch), id, s.jobs[id].version + 1)
  {
    var b := s.jobs[id].spec.batch;
    var i := JobPosition(s, id);
    assert DistinctIds(JobsOf(s, b)) by { JobsOfIds(s, b); }
    CancelEventsAnnounce(s, b, i);
  }

  lemma WithCancelAnnounces(s: Store, id: Id, now: int)
    requires Links(s) && Rows(s) && id in s.jobs && s.jobs[id].spec.id == id
    requires var b := s.jobs[id].spec.batch; Linked(s, b) && Cancels(s, b)
    requires CancelledJob(s.jobs[id]).status != s.jobs[id].status
    ensures Announced(s.outbox, WithCancel(s, s.jobs[id].spec.batch, now).outbox, id)
  {
    CancelTellsOf(s, id);
    LifecycleAbsent(s, id);
    LifecycleAnnounces(s.outbox, CancelEvents(s, s.jobs[id].spec.batch), now, id, s.jobs[id].version + 1);
  }

  /** A change of status is announced by a row that was not there before. */
  ghost predicate ChangeTold(s: Store, s': Store, id: Id)
    requires id in s.jobs && id in s'.jobs
  {
    s'.jobs[id].status != s.jobs[id].status ==> Announced(s.outbox, s'.outbox, id)
  }

  lemma FirstCancelTold(s: Store, b: Id, now: int, id: Id)
    requires Links(s) && Rows(s) && b in s.batches && Linked(s, b) && Cancels(s, b) && id in s.jobs && s.jobs[id].spec.id == id
    ensures id in WithCancel(s, b, now).jobs && ChangeTold(s, WithCancel(s, b, now), id)
  {
    CancelJobs(s, b, now, id);
    if s.jobs[id].spec.batch == b && CancelledJob(s.jobs[id]).status != s.jobs[id].status { WithCancelAnnounces(s, id, now); }
  }

  lemma CancelTold(s: Store, x: Id, now: int, id: Id)
    requires StoreInv(s) && id in s.jobs
    ensures id in Do(s, Cancel(x, now)).jobs && ChangeTold(s, Do(s, Cancel(x, now)), id)
  {
    if x in s.batches {
      CancelPre(s, x);
      StoreIndexed(s);
      if Cancels(s, x) {
        FirstCancel(s, x, now);
        FirstCancelTold(s, x, now, id);
      } else {
        IdleCancel(s, x, now);
      }
    }
  }

  lemma SwapTold(w: World, t: nat, now: int, owner: string, until: int, retryable: bool, id: Id)
    requires Rows(w.store) && ThreadFine(w, t) && id in w.store.jobs
    ensures id in Step(w, Swap(t, now, owner, until, retryable)).store.jobs
    ensures ChangeTold(w.store, Step(w, Swap(t, now, owner, until, retryable)).store, id)
  {
    if WorkerAt(w, t) && w.threads[t].pc.Swapping? {
      var th := w.threads[t];
      var r := SwapResult(w.store, th.pc.job, th.pc.mutation, now);
      if r.Ok? {
        SwapFound(w.store, th.pc.job, th.pc.mutation, now, th.job);
        MutateTouches(w.store, th.job, th.pc.job.version, th.pc.mutation, now, id);
        MutateTold(w.store, th.job, th.pc.job.version, th.pc.mutation, now);
      }
    }
  }

  lemma MutateTold(s: Store, id: Id, expected: int, m: Mutation, now: int)
    requires Rows(s) && MutateJob(s, id, expected, m, now).Ok? && s.jobs[id].spec.id == id
    ensures id in MutateJob(s, id, expected, m, now).value.0.jobs && ChangeTold(s, MutateJob(s, id, expected, m, now).value.0, id)
  {
    var job', events := MutateEffect(s, id, expected, m, now);
    if job'.status != s.jobs[id].status { MutateAnnounces(s, id, expected, m, now); }
  }

  lemma CompSwapKeepsStatus(a: Job, m: CompMutation, now: int, b: Job)
    requires StepsTo(a, ByCompensation(m), now, b)
    ensures b.status == a.status
  {
  }

  ghost predicate StatusLegal(a: JobStatus, b: JobStatus) { b == a || JobTransition(a, b) }

  /** A change of the stored job moves its status along the table; compensation never moves it. */
  lemma ChangeIsLegal(w: World, l: Label, a: Job, b: Job)
    requires JobChanged(w, l, a, b)
    ensures StatusLegal(a.status, b.status)
    ensures !l.Swap? && !(l.StoreStep? && l.op.Cancel?) ==> b.status == a.status
  {
    if l.CompSwap? && Swapped(w, l, a, b) { CompSwapKeepsStatus(a, w.threads[l.t].cpc.mutation, l.now, b); }
  }

  lemma CancelStepTold(w: World, op: StoreOp, id: Id)
    requires StoreInv(w.store) && id in w.store.jobs && op.Cancel?
    ensures id in Step(w, StoreStep(op)).store.jobs && ChangeTold(w.store, Step(w, StoreStep(op)).store, id)
  {
    CancelTold(w.store, op.batch, op.now, id);
  }

  /** Every step moves a job's status along the transition table or leaves it, and announces the move. */
  lemma StatusFollowsTable(w: World, l: Label, id: Id)
    requires Coherent(w) && id in w.store.jobs && id in Step(w, l).store.jobs
    ensures StatusLegal(w.store.jobs[id].status, Step(w, l).store.jobs[id].status)
    ensures ChangeTold(w.store, Step(w, l).store, id)
  {
    StoreIndexed(w.store);
    StoredChange(w, l, id);
    ChangeIsLegal(w, l, w.store.jobs[id], Step(w, l).store.jobs[id]);
    if l.Swap? { SwapTold(w, l.t, l.now, l.owner, l.until, l.retryable, id); }
    else if l.StoreStep? && l.op.Cancel? { CancelStepTold(w, l.op, id); }
  }

  lemma JobRemains(w: World, l: Label, id: Id)
    requires Coherent(w) && id in w.store.jobs
    ensures id in Step(w, l).store.jobs
  {
    StepCoherent(w, l);
  }

  /** Status table and announcements at every step of every run. */
  lemma EveryStepIsLegal(labels: seq<Label>, l: Label, id: Id)
    requires id in Run(labels).store.jobs
    ensures id in Step(Run(labels), l).store.jobs
    ensures StatusLegal(Run(labels).store.jobs[id].status, Step(Run(labels), l).store.jobs[id].status)
    ensures ChangeTold(Run(labels).store, Step(Run(labels), l).store, id)
  {
    RunCoherent(labels);
    JobRemains(Run(labels), l, id);
    StatusFollowsTable(Run(labels), l, id);
  }
}
