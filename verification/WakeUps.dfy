/**
 No lost wake-up, in every run in which no worker writes to a job that it holds as finished and compensated for,
 overlapping workers included: whenever nothing keeps a batch from ending, some request to run its barrier is still pending and untried,
 although the barrier call and the acknowledgement of the row are separate steps. Lease-exclusive runs are such runs.
 */
module WakeUps {
  import opened Basics
  import opened GenerationModels
  import opened JobMutations
  import opened WorkflowStore
  import opened BatchTransactions
  import opened StoreInvariants
  import opened Workers
  import opened World
  import opened Snapshots
  import opened StoredChanges
  import opened MoneyRules
  import opened MoneyRuns
  import opened ExclusiveRules
  import opened ExclusiveRuns

  // ---------------------------------------------------------------- the outbox under store operations

  /** Rows are only added, and added pending. */
  ghost predicate Appended(o: Outbox, o': Outbox) {
    && (forall k :: k in o ==> k in o' && o'[k] == o[k])
    && (forall k :: k in o' && k !in o ==> o'[k].status.RowPending?)
  }

  lemma AppendAllAppends(o: Outbox, events: seq<Event>, now: int)
    ensures Appended(o, AppendAll(o, events, now))
  {
  }

  lemma CreateAppends(s: Store, c: CreateCommand, now: int)
    ensures Appended(s.outbox, Do(s, Create(c, now)).outbox)
  {
  }

  lemma MutateAppends(s: Store, job: Id, expected: int, m: Mutation, now: int)
    ensures Appended(s.outbox, Do(s, Mutate(job, expected, m, now)).outbox)
  {
    if MutateJob(s, job, expected, m, now).Ok? {
      var job', events := MutateEffect(s, job, expected, m, now);
      AppendAllAppends(s.outbox, events, now);
    }
  }

  lemma FinalizedAppends(s: Store, b: Id, now: int)
    requires Linked(s, b)
    ensures Appended(s.outbox, Finalized(s, b, now).outbox)
  {
  }

  lemma BarrierAppends(s: Store, b: Id, now: int)
    requires b in s.batches ==> Linked(s, b) && TryFinalize(s, b, now) == Ok(Finalized(s, b, now))
    ensures Appended(s.outbox, Do(s, Barrier(b, now)).outbox)
  {
    if b in s.batches { FinalizedAppends(s, b, now); }
  }

  lemma CancelAppends(s: Store, b: Id, now: int)
    ensures Appended(s.outbox, Do(s, Cancel(b, now)).outbox)
  {
  }

  /** Everything but an acknowledgement or a rejection only adds rows. */
  lemma OpsAppend(s: Store, op: StoreOp)
    requires StoreInv(s) && !op.Acknowledge? && !op.Reject?
    ensures Appended(s.outbox, Do(s, op).outbox)
  {
    match op {
      case Create(c, now) => CreateAppends(s, c, now);
      case Mutate(job, expected, m, now) => MutateAppends(s, job, expected, m, now);
      case Barrier(b, now) => if b in s.batches { BarrierIs(s, b, now); } BarrierAppends(s, b, now);
      case Cancel(b, now) => CancelAppends(s, b, now);
      case _ =>
    }
  }

  /** A pending barrier request stays pending until someone acknowledges it. */
  lemma RowStaysPending(s: Store, op: StoreOp, k: OutboxKey)
    requires StoreInv(s) && k in s.outbox && s.outbox[k].status.RowPending? && s.outbox[k].event.kind.FinalizeRequested?
    requires op != Acknowledge(k)
    ensures k in Do(s, op).outbox && Do(s, op).outbox[k].status.RowPending? && Do(s, op).outbox[k].event == s.outbox[k].event
  {
    if op.Acknowledge? || op.Reject? { MarksSpare(s, op, k); } else { OpsAppend(s, op); }
  }

  /** Marking another row, or refusing this one, leaves a barrier request pending. */
  lemma MarksSpare(s: Store, op: StoreOp, k: OutboxKey)
    requires (op.Acknowledge? || op.Reject?) && op != Acknowledge(k)
    requires k in s.outbox && s.outbox[k].status.RowPending? && s.outbox[k].event.kind.FinalizeRequested?
    ensures k in Do(s, op).outbox && Do(s, op).outbox[k].status.RowPending? && Do(s, op).outbox[k].event == s.outbox[k].event
  {
  }

  lemma NewRowPending(s: Store, op: StoreOp, k: OutboxKey)
    requires StoreInv(s) && k !in s.outbox && k in Do(s, op).outbox
    ensures Do(s, op).outbox[k].status.RowPending?
  {
    if !op.Acknowledge? && !op.Reject? { OpsAppend(s, op); }
  }

  // ---------------------------------------------------------------- the claim

  predicate SettledComp(j: Job) { j.comp.CompCompleted? || j.comp.ManuallyFinal? }

  /** Nothing about this job holds its batch back. */
  predicate Over(j: Job) { Terminal(j) && !Unsettled(j) }

  /** This row will still make a relay run the barrier of the batch. */
  ghost predicate Awake(w: World, k: OutboxKey, b: Id) {
    && k in w.store.outbox && w.store.outbox[k].status.RowPending?
    && w.store.outbox[k].event.kind.FinalizeRequested? && w.store.outbox[k].event.batch == b
    && (forall t :: t in w.threads ==> w.threads[t] != Relay(k, Tried))
  }

  ghost predicate Stuck(s: Store, b: Id) {
    b in s.batches && Linked(s, b) && !TerminalBatch(s.batches[b].status) && Ready(s, b)
  }

  ghost predicate NoneLost(w: World) {
    forall b :: b in w.store.batches && Stuck(w.store, b) ==> exists k :: Awake(w, k, b)
  }

  ghost predicate SettledRows(s: Store) {
    forall id :: JobWake(id, Settled) in s.outbox ==> id in s.jobs && SettledComp(s.jobs[id])
  }

  /**
   A worker writes to a job although the state it holds, and which is still the stored one, is finished with its
   compensation asked for: the check that a reread leaves out.
   */
  ghost predicate Late(w: World, l: Label) {
    && l.Swap? && WorkerAt(w, l.t) && w.threads[l.t].pc.Swapping?
    && (var held := w.threads[l.t].pc.job;
        Terminal(held) && !held.comp.NotRequired? && held.version == w.store.jobs[w.threads[l.t].job].version)
  }

  ghost predicate PunctualRun(labels: seq<Label>) {
    forall i :: 0 <= i < |labels| ==> !Late(Run(labels[..i]), labels[i])
  }

  // ---------------------------------------------------------------- settled stays settled

  /** What a job's worker or compensator does to it, given that it acts on the state it found. */
  lemma ChangeEndsOnce(w: World, l: Label, a: Job, b: Job)
    requires JobChanged(w, l, a, b) && Bounded(a) && a.spec.id in w.store.jobs && w.store.jobs[a.spec.id] == a
    requires ActorIn(w, l) && !Late(w, l)
    ensures SettledComp(a) ==> SettledComp(b)
    ensures Over(b) && !Over(a) && !CancelledBy(l, a, b) ==>
      Swapped(w, l, a, b) && (if l.Swap? then !Terminal(a) else InCompensation(a))
  {
  }

  lemma SettledEvent(before: Job, after: Job, events: seq<Event>, id: Id, e: Event)
    requires forall x :: x in events ==> EventFits(x, before, after)
    requires e in events && e.key == JobWake(id, Settled)
    ensures id == before.spec.id && SettledComp(after)
  {
    assert EventFits(e, before, after);
  }

  lemma MutationSettles(s: Store, job: Id, expected: int, m: Mutation, now: int, id: Id)
    requires job in s.jobs ==> s.jobs[job].spec.id == job
    requires JobWake(id, Settled) !in s.outbox && JobWake(id, Settled) in Do(s, Mutate(job, expected, m, now)).outbox
    ensures id in Do(s, Mutate(job, expected, m, now)).jobs && SettledComp(Do(s, Mutate(job, expected, m, now)).jobs[id])
  {
    var job', events := MutateEffect(s, job, expected, m, now);
    SettledEvent(s.jobs[job], job', events, id, AppendAll(s.outbox, events, now)[JobWake(id, Settled)].event);
  }

  lemma CreationIsSilent(s: Store, c: CreateCommand, now: int, id: Id)
    requires JobWake(id, Settled) !in s.outbox
    ensures JobWake(id, Settled) !in Do(s, Create(c, now)).outbox
  {
    DoCreateIs(s, c, now);
    CreateIsSilent(s, c, now, id);
  }

  lemma CreateIsSilent(s: Store, c: CreateCommand, now: int, id: Id)
    requires JobWake(id, Settled) !in s.outbox
    ensures var r := CreateWorkflow(s, c, now); r.Ok? ==> JobWake(id, Settled) !in r.value.0.outbox
  {
    CreateOutcomes(s, c, now);
    if CreateWorkflow(s, c, now).Ok? { WorkflowIsSilent(s, CreateWorkflow(s, c, now).value.0, c, now, id); }
  }

  lemma WorkflowIsSilent(s: Store, s': Store, c: CreateCommand, now: int, id: Id)
    requires JobWake(id, Settled) !in s.outbox
    requires s' == s || s' == WithWorkflow(s, c, NewJobs(c, now), now)
    ensures JobWake(id, Settled) !in s'.outbox
  {
    CreationEventsSilent(s.outbox, c, NewJobs(c, now), now, id);
  }

  lemma CreationEventsSilent(outbox: Outbox, c: CreateCommand, jobs: seq<Job>, now: int, id: Id)
    requires JobWake(id, Settled) !in outbox
    ensures JobWake(id, Settled) !in AppendAll(outbox, CreationEvents(c, jobs), now)
  {
    assert forall e :: e in CreationEvents(c, jobs) ==> !e.key.JobWake?;
  }

  lemma BarrierIsSilent(s: Store, b: Id, now: int, id: Id)
    requires b in s.batches ==> Linked(s, b) && TryFinalize(s, b, now) == Ok(Finalized(s, b, now))
    requires JobWake(id, Settled) !in s.outbox
    ensures JobWake(id, Settled) !in Do(s, Barrier(b, now)).outbox
  {
  }

  lemma CancelEventsSilent(o: Operation, batch: Batch, jobs: seq<Job>, e: Event)
    requires |CancelChange(o, batch, jobs).jobs| == |jobs|
    requires e in EnsureAll(CancelChange(o, batch, jobs).events, jobs, CancelChange(o, batch, jobs).jobs)
    ensures !e.key.JobWake?
  {
    var c := CancelChange(o, batch, jobs);
    EnsureAllAdds(c.events, jobs, c.jobs);
    if e in c.events {
      assert c.events != [] ==> e == c.events[0] || e in CancelNotices(jobs) || e == c.events[|c.events| - 1];
    }
  }

  lemma CancelOutbox(s: Store, b: Id, now: int)
    requires CancelBatch(s, b, now).Ok?
    ensures Linked(s, b)
    ensures var jobs := JobsOf(s, b);
            var c := CancelChange(s.operations[s.batches[b].operation], s.batches[b], jobs);
            |c.jobs| == |jobs| && CancelBatch(s, b, now).value.outbox == AppendAll(s.outbox, EnsureAll(c.events, jobs, c.jobs), now)
  {
  }

  lemma NoSuchRow(o: Outbox, events: seq<Event>, now: int, k: OutboxKey)
    requires k !in o && forall e :: e in events ==> e.key != k
    ensures k !in AppendAll(o, events, now)
  {
  }

  lemma CancelIsSilent(s: Store, b: Id, now: int, id: Id)
    requires JobWake(id, Settled) !in s.outbox
    ensures JobWake(id, Settled) !in Do(s, Cancel(b, now)).outbox
  {
    if CancelBatch(s, b, now).Ok? {
      CancelOutbox(s, b, now);
      var o, batch, jobs := s.operations[s.batches[b].operation], s.batches[b], JobsOf(s, b);
      var c := CancelChange(o, batch, jobs);
      forall e | e in EnsureAll(c.events, jobs, c.jobs) ensures e.key != JobWake(id, Settled) { CancelEventsSilent(o, batch, jobs, e); }
      NoSuchRow(s.outbox, EnsureAll(c.events, jobs, c.jobs), now, JobWake(id, Settled));
    }
  }

  lemma NewSettledRow(s: Store, op: StoreOp, id: Id)
    requires StoreInv(s) && JobWake(id, Settled) !in s.outbox && JobWake(id, Settled) in Do(s, op).outbox
    ensures id in Do(s, op).jobs && SettledComp(Do(s, op).jobs[id])
  {
    match op {
      case Mutate(job, expected, m, now) => StoreIndexed(s); MutationSettles(s, job, expected, m, now, id);
      case Create(c, now) => CreationIsSilent(s, c, now, id);
      case Barrier(b, now) => if b in s.batches { BarrierIs(s, b, now); } BarrierIsSilent(s, b, now, id);
      case Cancel(b, now) => CancelIsSilent(s, b, now, id);
      case _ =>
    }
  }

  lemma SettledRowsKept(w: World, l: Label)
    requires Coherent(w) && MoneyInv(w) && !Late(w, l) && SettledRows(w.store)
    ensures SettledRows(Step(w, l).store)
  {
    var s, s' := w.store, Step(w, l).store;
    StepDoes(w, l);
    StepCoherent(w, l);
    ActorKnown(w, l);
    StoreIndexed(s);
    forall id | JobWake(id, Settled) in s'.outbox ensures id in s'.jobs && SettledComp(s'.jobs[id]) {
      if JobWake(id, Settled) in s.outbox {
        StoredChange(w, l, id);
        ChangeEndsOnce(w, l, s.jobs[id], s'.jobs[id]);
      } else {
        NewSettledRow(s, OpOf(w, l), id);
      }
    }
  }

  // ---------------------------------------------------------------- a new request is awake

  lemma TriedKnown(w: World, l: Label, t: nat)
    requires t in Step(w, l).threads && Step(w, l).threads[t].Relay? && Step(w, l).threads[t].rpc.Tried?
    ensures t in w.threads && w.threads[t].Relay? && w.threads[t].key == Step(w, l).threads[t].key
    ensures w.threads[t].rpc.Tried? || (l.Publish? && l.t == t && l.accepted && w.threads[t].rpc.Holding? && w.threads[t].key in w.store.outbox)
  {
  }

  lemma FreshAwake(w: World, l: Label, k: OutboxKey, b: Id)
    requires Coherent(w) && Coherent(Step(w, l)) && k !in w.store.outbox && k in Step(w, l).store.outbox
    requires (k.JobWake? || k.CancelWake?) && Step(w, l).store.outbox[k].event.batch == b
    ensures Awake(Step(w, l), k, b)
  {
    var w' := Step(w, l);
    StepDoes(w, l);
    NewRowPending(w.store, OpOf(w, l), k);
    assert RowShape(k, w'.store.outbox[k]);
    forall t | t in w'.threads ensures w'.threads[t] != Relay(k, Tried) {
      if w'.threads[t].Relay? && w'.threads[t].rpc.Tried? {
        TriedKnown(w, l, t);
        assert ThreadCoherent(w.store, w.threads[t]);
      }
    }
  }

  // ---------------------------------------------------------------- an old request stays awake

  /** A barrier call on a batch that nothing holds back ends it. */
  lemma StuckBatchEnds(s: Store, b: Id, now: int)
    requires StoreInv(s) && Stuck(s, b)
    ensures TryFinalize(s, b, now).Ok? && b in TryFinalize(s, b, now).value.batches
    ensures TerminalBatch(TryFinalize(s, b, now).value.batches[b].status)
  {
    BarrierIs(s, b, now);
    NotEndedYet(s, b);
    assert BatchLink(s, b) && BatchState(s, b);
    EndingBarrier(s, b, now);
  }

  lemma PublishingEnds(w: World, t: nat, now: int, b: Id)
    requires StoreInv(w.store) && Stuck(w.store, b)
    requires t in w.threads && w.threads[t].Relay? && w.threads[t].rpc.Holding? && w.threads[t].key in w.store.outbox
    requires w.store.outbox[w.threads[t].key].event.kind.FinalizeRequested? && w.store.outbox[w.threads[t].key].event.batch == b
    ensures var s' := Published(w, t, true, now).store; b in s'.batches && TerminalBatch(s'.batches[b].status)
  {
    StuckBatchEnds(w.store, b, now);
  }

  lemma NotAcknowledged(w: World, l: Label, k: OutboxKey)
    requires forall t :: t in w.threads ==> w.threads[t] != Relay(k, Tried)
    ensures OpOf(w, l) != Acknowledge(k)
  {
  }

  lemma PublishIs(w: World, t: nat, now: int)
    requires t in w.threads && w.threads[t].Relay? && w.threads[t].rpc.Holding? && w.threads[t].key in w.store.outbox
    ensures Step(w, Publish(t, true, now)) == Published(w, t, true, now)
  {
  }

  lemma NobodyTried(w: World, l: Label, k: OutboxKey, b: Id, t: nat)
    requires StoreInv(w.store) && Stuck(w.store, b) && Awake(w, k, b)
    requires b in Step(w, l).store.batches && !TerminalBatch(Step(w, l).store.batches[b].status)
    requires t in Step(w, l).threads
    ensures Step(w, l).threads[t] != Relay(k, Tried)
  {
    if Step(w, l).threads[t] == Relay(k, Tried) {
      TriedKnown(w, l, t);
      PublishIs(w, t, l.now);
      PublishingEnds(w, t, l.now, b);
    }
  }

  lemma OldRowPending(w: World, l: Label, k: OutboxKey, b: Id)
    requires StoreInv(w.store) && Awake(w, k, b)
    ensures k in Step(w, l).store.outbox && Step(w, l).store.outbox[k].status.RowPending?
    ensures Step(w, l).store.outbox[k].event == w.store.outbox[k].event
  {
    StepDoes(w, l);
    NotAcknowledged(w, l, k);
    RowStaysPending(w.store, OpOf(w, l), k);
  }

  lemma OldAwake(w: World, l: Label, k: OutboxKey, b: Id)
    requires StoreInv(w.store) && Stuck(w.store, b) && Awake(w, k, b)
    requires b in Step(w, l).store.batches && !TerminalBatch(Step(w, l).store.batches[b].status)
    ensures Awake(Step(w, l), k, b)
  {
    OldRowPending(w, l, k, b);
    forall t | t in Step(w, l).threads ensures Step(w, l).threads[t] != Relay(k, Tried) { NobodyTried(w, l, k, b, t); }
  }

  // ---------------------------------------------------------------- a batch that becomes ready

  /** A job that ends leaves its request. */
  lemma MutateWakes(s: Store, id: Id, expected: int, m: Mutation, now: int)
    requires MutateJob(s, id, expected, m, now).Ok? && s.jobs[id].spec.id == id
    requires !Terminal(s.jobs[id]) && Terminal(MutateJob(s, id, expected, m, now).value.1)
    ensures JobWake(id, BecameTerminal) in MutateJob(s, id, expected, m, now).value.0.outbox
  {
    var job', events := MutateEffect(s, id, expected, m, now);
    var e :| e in events && e == WakeFor(job', BecameTerminal);
    var i :| 0 <= i < |events| && events[i] == e;
    assert events[i].key in AppendAll(s.outbox, events, now);
  }

  predicate Settles(c: CompMutation) { c.CompleteCompensation? || c.FinalizeManually? }

  lemma OnlySettlingSettles(a: Job, c: CompMutation, now: int, b: Job)
    requires StepsTo(a, ByCompensation(c), now, b) && InCompensation(a) && Terminal(a) && !Over(a) && Over(b)
    ensures Settles(c)
  {
  }

  lemma SettlingEvents(a: Job, c: CompMutation, now: int)
    requires Settles(c)
    ensures ApplyComp(c, a, now).Ok? && WakeFor(ApplyComp(c, a, now).value.job, Settled) in ApplyComp(c, a, now).value.events
  {
  }

  /** A compensation that is settled leaves its request. */
  lemma SettlingWakes(s: Store, id: Id, expected: int, c: CompMutation, now: int)
    requires MutateJob(s, id, expected, ByCompensation(c), now).Ok? && s.jobs[id].spec.id == id && Settles(c)
    ensures JobWake(id, Settled) in MutateJob(s, id, expected, ByCompensation(c), now).value.0.outbox
  {
    var a := s.jobs[id];
    SettlingEvents(a, c, now);
    var change := ApplyComp(c, a, now).value;
    var events := EnsureLifecycle(change.events, a, change.job, true);
    var i :| 0 <= i < |change.events| && change.events[i] == WakeFor(change.job, Settled);
    assert events[i].key == JobWake(id, Settled);
  }

  /** The request a step leaves when it makes the job's last obstacle go away. */
  function WakeKey(l: Label, j: Job): OutboxKey {
    if l.Swap? then JobWake(j.spec.id, BecameTerminal)
    else if l.CompSwap? then JobWake(j.spec.id, Settled)
    else CancelWake(j.spec.batch)
  }

  lemma SwapLeavesWake(w: World, t: nat, now: int, owner: string, until: int, retryable: bool, id: Id)
    requires ThreadFine(w, t) && id in w.store.jobs && !Terminal(w.store.jobs[id])
    requires id in Step(w, Swap(t, now, owner, until, retryable)).store.jobs && Terminal(Step(w, Swap(t, now, owner, until, retryable)).store.jobs[id])
    ensures JobWake(id, BecameTerminal) in Step(w, Swap(t, now, owner, until, retryable)).store.outbox
  {
    if WorkerAt(w, t) && w.threads[t].pc.Swapping? {
      var th := w.threads[t];
      if SwapResult(w.store, th.pc.job, th.pc.mutation, now).Ok? {
        SwapFound(w.store, th.pc.job, th.pc.mutation, now, th.job);
        MutateTouches(w.store, th.job, th.pc.job.version, th.pc.mutation, now, id);
        MutateWakes(w.store, th.job, th.pc.job.version, th.pc.mutation, now);
      }
    }
  }

  lemma CompSwapLeavesWake(w: World, t: nat, now: int, id: Id)
    requires ThreadFine(w, t) && id in w.store.jobs && id in Step(w, CompSwap(t, now)).store.jobs
    requires Swapped(w, CompSwap(t, now), w.store.jobs[id], Step(w, CompSwap(t, now)).store.jobs[id])
    requires InCompensation(w.store.jobs[id]) && Terminal(w.store.jobs[id]) && !Over(w.store.jobs[id]) && Over(Step(w, CompSwap(t, now)).store.jobs[id])
    ensures JobWake(id, Settled) in Step(w, CompSwap(t, now)).store.outbox
  {
    var th := w.threads[t];
    OnlySettlingSettles(w.store.jobs[id], th.cpc.mutation, now, Step(w, CompSwap(t, now)).store.jobs[id]);
    if SwapResult(w.store, th.cpc.job, ByCompensation(th.cpc.mutation), now).Ok? {
      SwapFound(w.store, th.cpc.job, ByCompensation(th.cpc.mutation), now, th.job);
      SettlingWakes(w.store, th.job, th.cpc.job.version, th.cpc.mutation, now);
    }
  }

  lemma CancelEventsWake(s: Store, b: Id)
    requires Linked(s, b) && Cancels(s, b) && s.batches[b].id == b
    ensures exists i :: 0 <= i < |CancelEvents(s, b)| && CancelEvents(s, b)[i].key == CancelWake(b)
  {
    var batch, o, jobs := s.batches[b], s.operations[s.batches[b].operation], JobsOf(s, b);
    var events := CancelChange(o, batch, jobs).events;
    var wake := events[|events| - 1];
    EnsureAllAdds(events, jobs, CancelledJobs(jobs));
    assert wake in events && wake.key == CancelWake(b);
    var i :| 0 <= i < |CancelEvents(s, b)| && CancelEvents(s, b)[i] == wake;
  }

  lemma NotCancelledYet(s: Store, b: Id)
    requires Rows(s) && b in s.batches && !s.batches[b].cancelRequested
    ensures CancelWake(b) !in s.outbox
  {
  }

  lemma RowAppended(o: Outbox, events: seq<Event>, now: int, i: nat)
    requires i < |events|
    ensures events[i].key in AppendAll(o, events, now)
  {
  }

  lemma WithCancelWakes(s: Store, b: Id, now: int)
    requires Linked(s, b) && Cancels(s, b) && s.batches[b].id == b && Rows(s)
    ensures CancelWake(b) !in s.outbox && CancelWake(b) in WithCancel(s, b, now).outbox
  {
    NotCancelledYet(s, b);
    CancelEventsWake(s, b);
    var i :| 0 <= i < |CancelEvents(s, b)| && CancelEvents(s, b)[i].key == CancelWake(b);
    RowAppended(s.outbox, CancelEvents(s, b), now, i);
  }

  /** A cancel that changes a job leaves its request. */
  lemma CancelLeavesWake(s: Store, x: Id, now: int, id: Id)
    requires StoreInv(s) && id in s.jobs && CancelBatch(s, x, now).Ok?
    requires id in CancelBatch(s, x, now).value.jobs && CancelBatch(s, x, now).value.jobs[id] != s.jobs[id]
    ensures x == s.jobs[id].spec.batch && CancelWake(x) !in s.outbox && CancelWake(x) in CancelBatch(s, x, now).value.outbox
  {
    CancelPre(s, x);
    if Cancels(s, x) {
      FirstCancel(s, x, now);
      CancelJobs(s, x, now, id);
      assert BatchLink(s, x);
      WithCancelWakes(s, x, now);
    } else {
      IdleCancel(s, x, now);
    }
  }

  // ---------------------------------------------------------------- every step

  lemma NotReadyWitness(s: Store, b: Id) returns (id: Id)
    requires Linked(s, b) && !Ready(s, b)
    ensures id in s.jobIds[b] && id in s.jobs && !Over(s.jobs[id])
  {
    var jobs := JobsOf(s, b);
    var j :| j in jobs && !Over(j);
    var i :| 0 <= i < |jobs| && jobs[i] == j;
    id := s.jobIds[b][i];
  }

  lemma ReadyMeansOver(s: Store, b: Id, id: Id)
    requires Linked(s, b) && Ready(s, b) && id in s.jobIds[b]
    ensures id in s.jobs && Over(s.jobs[id])
  {
    var i :| 0 <= i < |s.jobIds[b]| && s.jobIds[b][i] == id;
    assert JobsOf(s, b)[i] in JobsOf(s, b);
  }

  lemma CancelObstacle(w: World, x: Id, now: int, id: Id)
    requires StoreInv(w.store) && id in w.store.jobs && id in Step(w, StoreStep(Cancel(x, now))).store.jobs
    requires Step(w, StoreStep(Cancel(x, now))).store.jobs[id] != w.store.jobs[id]
    ensures var k := CancelWake(w.store.jobs[id].spec.batch); k !in w.store.outbox && k in Step(w, StoreStep(Cancel(x, now))).store.outbox
  {
    CancelLeavesWake(w.store, x, now, id);
  }

  /** The step that removes a job's obstacle leaves a request that was not there before. */
  lemma ObstacleGone(w: World, l: Label, id: Id)
    requires Coherent(w) && MoneyInv(w) && !Late(w, l) && SettledRows(w.store) && id in w.store.jobs && id in Step(w, l).store.jobs
    requires !Over(w.store.jobs[id]) && Over(Step(w, l).store.jobs[id])
    ensures WakeKey(l, w.store.jobs[id]) !in w.store.outbox && WakeKey(l, w.store.jobs[id]) in Step(w, l).store.outbox
  {
    StoreIndexed(w.store);
    ActorKnown(w, l);
    StoredChange(w, l, id);
    ChangeEndsOnce(w, l, w.store.jobs[id], Step(w, l).store.jobs[id]);
    if l.StoreStep? { CancelObstacle(w, l.op.batch, l.op.now, id); } else { ObstacleWake(w, l, id); }
  }

  lemma ObstacleWake(w: World, l: Label, id: Id)
    requires Actor(l).Some? && ThreadFine(w, Actor(l).value)
    requires Rows(w.store) && SettledRows(w.store) && id in w.store.jobs && w.store.jobs[id].spec.id == id && id in Step(w, l).store.jobs
    requires !Over(w.store.jobs[id]) && Over(Step(w, l).store.jobs[id]) && Bounded(w.store.jobs[id])
    requires Swapped(w, l, w.store.jobs[id], Step(w, l).store.jobs[id])
    requires if l.Swap? then !Terminal(w.store.jobs[id]) else InCompensation(w.store.jobs[id])
    ensures WakeKey(l, w.store.jobs[id]) !in w.store.outbox && WakeKey(l, w.store.jobs[id]) in Step(w, l).store.outbox
  {
    match l {
      case Swap(t, now, owner, until, retryable) =>
        SwapLeavesWake(w, t, now, owner, until, retryable, id);
        NoWakeYet(w.store, id);
      case CompSwap(t, now) => CompSwapLeavesWake(w, t, now, id);
    }
  }

  lemma NoWakeYet(s: Store, id: Id)
    requires Rows(s) && id in s.jobs && !Terminal(s.jobs[id])
    ensures JobWake(id, BecameTerminal) !in s.outbox
  {
  }

  lemma MemberStays(s: Store, s': Store, b: Id, id: Id)
    requires StoreInv(s) && StoreInv(s') && Grows(s, s') && b in s.batches && b in s.jobIds && id in s.jobIds[b]
    ensures id in s.jobs && s.jobs[id].spec.batch == b && id in s'.jobs && s'.jobs[id].spec.batch == b && b in s'.jobIds && id in s'.jobIds[b]
  {
    assert BatchLink(s, b);
    var i :| 0 <= i < |s.jobIds[b]| && s.jobIds[b][i] == id;
    assert JobGrows(s.jobs[id], s'.jobs[id]);
    assert JobLink(s', id);
  }

  lemma WakeBatch(s: Store, k: OutboxKey, id: Id, b: Id)
    requires Rows(s) && k in s.outbox && id in s.jobs && s.jobs[id].spec.batch == b
    requires (k.JobWake? && k.job == id) || k == CancelWake(b)
    ensures s.outbox[k].event.batch == b
  {
    assert RowShape(k, s.outbox[k]) && RowMeaning(s, s.outbox[k]);
  }

  lemma NewlyStuck(w: World, l: Label, b: Id)
    requires Coherent(w) && MoneyInv(w) && !Late(w, l) && SettledRows(w.store) && Coherent(Step(w, l)) && Grows(w.store, Step(w, l).store)
    requires b in w.store.batches && Linked(w.store, b) && !Ready(w.store, b) && Stuck(Step(w, l).store, b)
    ensures exists k :: Awake(Step(w, l), k, b)
  {
    var s, s' := w.store, Step(w, l).store;
    var id := NotReadyWitness(s, b);
    MemberStays(s, s', b, id);
    ReadyMeansOver(s', b, id);
    StoreIndexed(s);
    ObstacleGone(w, l, id);
    var k := WakeKey(l, s.jobs[id]);
    WakeBatch(s', k, id, b);
    FreshAwake(w, l, k, b);
  }

  /** The jobs of a new batch are new. */
  lemma NewBatchNewJob(s: Store, s': Store, b: Id) returns (id: Id)
    requires StoreInv(s) && StoreInv(s') && Grows(s, s') && b !in s.batches && b in s'.batches
    ensures Linked(s', b) && s'.jobIds[b] != [] && id == s'.jobIds[b][0] && id in s'.jobs && id !in s.jobs
  {
    assert BatchLink(s', b);
    id := s'.jobIds[b][0];
    OldJobOldBatch(s, s', id);
  }

  lemma OldJobOldBatch(s: Store, s': Store, id: Id)
    requires StoreInv(s) && Grows(s, s') && id in s'.jobs
    ensures id in s.jobs ==> s'.jobs[id].spec.batch in s.batches
  {
    if id in s.jobs { assert JobLink(s, id) && JobGrows(s.jobs[id], s'.jobs[id]); }
  }

  lemma OpenJobHoldsBack(s: Store, b: Id)
    requires Linked(s, b) && s.jobIds[b] != [] && !Terminal(s.jobs[s.jobIds[b][0]])
    ensures !Ready(s, b)
  {
    assert JobsOf(s, b)[0] in JobsOf(s, b);
  }

  /** A batch is created with jobs that have yet to run. */
  lemma NewBatchWaits(w: World, l: Label, b: Id)
    requires Coherent(w) && Coherent(Step(w, l)) && Grows(w.store, Step(w, l).store)
    requires b !in w.store.batches && b in Step(w, l).store.batches
    ensures !Stuck(Step(w, l).store, b)
  {
    var id := NewBatchNewJob(w.store, Step(w, l).store, b);
    StoredChange(w, l, id);
    OpenJobHoldsBack(Step(w, l).store, b);
  }

  lemma StillOpen(s: Store, s': Store, b: Id)
    requires StoreInv(s) && Grows(s, s') && b in s.batches && b in s'.batches && !TerminalBatch(s'.batches[b].status)
    ensures Linked(s, b) && !TerminalBatch(s.batches[b].status)
  {
    assert BatchLink(s, b) && BatchGrows(s, s', b);
  }

  lemma StepLosesNone(w: World, l: Label)
    requires Coherent(w) && MoneyInv(w) && !Late(w, l) && SettledRows(w.store) && NoneLost(w)
    ensures NoneLost(Step(w, l))
  {
    var w' := Step(w, l);
    StepCoherent(w, l);
    forall b | b in w'.store.batches && Stuck(w'.store, b) ensures exists k :: Awake(w', k, b) {
      if b !in w.store.batches { NewBatchWaits(w, l, b); }
      else {
        StillOpen(w.store, w'.store, b);
        if Ready(w.store, b) {
          assert Stuck(w.store, b);
          var k :| Awake(w, k, b);
          OldAwake(w, l, k, b);
        } else {
          NewlyStuck(w, l, b);
        }
      }
    }
  }

  lemma PunctualPrefix(labels: seq<Label>)
    requires PunctualRun(labels) && labels != []
    ensures PunctualRun(labels[..|labels| - 1]) && !Late(Run(labels[..|labels| - 1]), labels[|labels| - 1])
  {
    var shorter := labels[..|labels| - 1];
    forall i | 0 <= i < |shorter| ensures !Late(Run(shorter[..i]), shorter[i]) {
      assert shorter[..i] == labels[..i] && shorter[i] == labels[i];
    }
  }

  lemma {:induction false} RunLosesNone(labels: seq<Label>)
    requires PunctualRun(labels)
    ensures SettledRows(Run(labels).store) && NoneLost(Run(labels))
    decreases |labels|
  {
    if labels != [] {
      var shorter, l := labels[..|labels| - 1], labels[|labels| - 1];
      PunctualPrefix(labels);
      RunLosesNone(shorter);
      RunKeepsMoney(shorter);
      SettledRowsKept(Run(shorter), l);
      StepLosesNone(Run(shorter), l);
    }
  }

  /** The batch has ended, or some row will still make a relay run its barrier: pending, untried and alive. */
  ghost predicate Woken(w: World, b: Id)
    requires b in w.store.batches
  {
    || TerminalBatch(w.store.batches[b].status)
    || exists k :: && k in w.store.outbox && w.store.outbox[k].event.kind.FinalizeRequested? && w.store.outbox[k].event.batch == b
                   && w.store.outbox[k].status.RowPending?
                   && forall t :: t in w.threads ==> w.threads[t] != Relay(k, Tried)
  }

  /**
   No lost wake-up: in every run, with any number of overlapping workers, as long as no write is late,
   a batch that nothing holds back is terminal or a request for its barrier is pending and untried.
   */
  lemma NoLostWakeUpUnlessLate(labels: seq<Label>, b: Id)
    requires PunctualRun(labels) && b in Run(labels).store.batches
    ensures Linked(Run(labels).store, b)
    ensures var w := Run(labels); AllTerminal(JobsOf(w.store, b)) && AllSettled(JobsOf(w.store, b)) ==> Woken(w, b)
  {
    var w := Run(labels);
    RunCoherent(labels);
    assert BatchLink(w.store, b);
    if Stuck(w.store, b) {
      RunLosesNone(labels);
      var k :| Awake(w, k, b);
    }
  }

  /** Under the lease a worker never holds a finished job. */
  lemma OrderlyIsPunctual(w: World, l: Label)
    requires OrderlyInv(w)
    ensures !Late(w, l)
  {
    if l.Swap? && l.t in w.threads { assert ThreadOrderly(w.store.jobs, w.threads[l.t]); }
  }

  lemma ExclusiveIsPunctual(labels: seq<Label>)
    requires ExclusiveRun(labels)
    ensures PunctualRun(labels)
  {
    forall i | 0 <= i < |labels| ensures !Late(Run(labels[..i]), labels[i]) {
      ExclusiveUpTo(labels, i);
      RunOrderly(labels[..i]);
      OrderlyIsPunctual(Run(labels[..i]), labels[i]);
    }
  }

  lemma ExclusiveUpTo(labels: seq<Label>, i: nat)
    requires ExclusiveRun(labels) && i <= |labels|
    ensures ExclusiveRun(labels[..i])
  {
    forall k | 0 <= k < i ensures LeaseExclusive(Run(labels[..i][..k]), labels[..i][k]) { assert labels[..i][..k] == labels[..k]; }
  }

  /** In particular no wake-up is lost in lease-exclusive runs. */
  lemma NoLostWakeUp(labels: seq<Label>, b: Id)
    requires ExclusiveRun(labels) && b in Run(labels).store.batches
    ensures Linked(Run(labels).store, b)
    ensures var w := Run(labels); AllTerminal(JobsOf(w.store, b)) && AllSettled(JobsOf(w.store, b)) ==> Woken(w, b)
  {
    ExclusiveIsPunctual(labels);
    NoLostWakeUpUnlessLate(labels, b);
  }
}
