/**
 Why the wake-up theorem excludes late writes: two workers of one job overlap, the one whose commit failed rereads the job
 after the other has ended it, reopens the settled compensation, and in the end a batch that nothing holds back
 is left open with every request for its barrier used up.
 */
module Overlap {
  import opened Basics
  import opened GenerationModels
  import opened JobMutations
  import opened WorkflowStore
  import opened BatchTransactions
  import opened StoreInvariants
  import opened Workers
  import opened World
  import opened Snapshots
  import opened StoredChanges
  import opened BarrierSoundness
  import opened WakeUps
  import opened OutboxDispatcher
  import opened Scenarios
  import Billing

  // ---------------------------------------------------------------- the first worker

  lemma CommitPlan(j: Job, price: Quote, f: Failure)
    requires !j.cancelRequested
    ensures Advance(Rechecking(j, j.assets, price), j, Binding(true, true, CommitRefused(f)), OWNER, 0)
            == Swapping(j, ByFinalizer(Commit(j.assets, CommitRefused(f))), ThenDelivered)
    ensures Apply(ByFinalizer(Commit(j.assets, CommitRefused(f))), j, 0) == Err(CommitFailed(f))
  {
  }

  /** The commit is refused; the worker is about to reread the job. */
  lemma CommitFails(ws: iset<World>, w: World, t: nat, j: Job, price: Quote, f: Failure) returns (w': World)
    requires Closed(ws, false) && w in ws && At(w, t, j, Rechecking(j, j.assets, price)) && !j.cancelRequested
    ensures w' in ws && w' == Moved(w, t, CommitRereading(f)) && At(w', t, j, CommitRereading(f))
  {
    CommitPlan(j, price, f);
    var m := ByFinalizer(Commit(j.assets, CommitRefused(f)));
    var w1 := Moves(ws, w, t, j, Rechecking(j, j.assets, price), Binding(true, true, CommitRefused(f)), false);
    assert SwapResult(w1.store, j, m, 0) == Err(Refused(CommitFailed(f)));
    w' := Moved(w, t, CommitRereading(f));
    assert w'.threads == Moved(w1, t, CommitRereading(f)).threads;
    assert Step(w1, Swap(t, 0, OWNER, 0, false)) == w';
  }

  /** The job has failed with its charge on record. */
  ghost predicate Ended(j: Job, spec: JobSpec, price: Quote) {
    && j.spec == spec && j.status.Failed? && !j.cancelRequested
    && j.money.key == Some(Billing.ChargeKey(spec.id)) && j.money.txn == Some(Billing.ChargeTxn(spec.id)) && j.money.charged == price.points && price.points > 0
  }

  /** No request for the barrier has come from this job. */
  ghost predicate Silent(s: Store, id: Id) { JobWake(id, BecameTerminal) !in s.outbox && JobWake(id, Settled) !in s.outbox }

  /** An outbox after a change of the job: old rows as they were, new ones pending, and no key but those of its events. */
  lemma RowsAfter(s: Store, j: Job, c: Change, k: OutboxKey)
    requires k.JobWake?
    ensures var o := Stored(s, j, c).outbox;
            && (k in s.outbox ==> k in o && o[k] == s.outbox[k])
            && (k in o <==> k in s.outbox || exists e :: e in c.events && e.key == k)
            && (k in o && k !in s.outbox ==> o[k].status.RowPending?)
  {
    var events := EnsureLifecycle(c.events, j, c.job, true);
    var o := AppendAll(s.outbox, events, 0);
    if exists e :: e in c.events && e.key == k {
      var e :| e in c.events && e.key == k;
      var i :| 0 <= i < |c.events| && c.events[i] == e;
      assert events[i] == e;
    }
  }

  // ---------------------------------------------------------------- the second worker

  lemma FailPlan(j: Job, price: Quote) returns (m: Mutation, c: Change)
    requires Reclaimable(j, price) && price.points > 0
    ensures Advance(Checking(j, j.assets, price), j, Binding(true, false, CommitOk), OWNER, 0) == Swapping(j, m, ThenDone) && Storable(j, m, c)
    ensures Ended(StampJob(j, c.job, 0), j.spec, price) && StampJob(j, c.job, 0).comp.CompPending?
    ensures exists e :: e in c.events && e.key == JobWake(j.spec.id, BecameTerminal)
    ensures forall e :: e in c.events ==> e.key != JobWake(j.spec.id, Settled)
  {
    m := ByFinalizer(FailAfterCharge(true));
    c := Apply(m, j, 0).value;
    assert c.events[1].key == JobWake(j.spec.id, BecameTerminal);
  }

  /** The second worker claims the finalization and finds the frozen price. */
  lemma Reclaims(ws: iset<World>, w: World, j: Job, price: Quote) returns (w': World, j': Job, result: ProviderResult)
    requires Closed(ws, false) && w in ws && Scene(w, j) && w.threads.Keys == {1} && Reclaimable(j, price) && Silent(w.store, j.spec.id)
    ensures w' in ws && At(w', 2, j', Entering(result)) && w'.ledger == w.ledger && w'.threads.Keys == {1, 2} && w'.threads[1] == w.threads[1]
    ensures j'.spec == j.spec && Reclaimable(j', price) && Silent(w'.store, j.spec.id)
  {
    var c;
    w', j', result, c := TakesOver(ws, w, 2, j, price, false);
    RowsAfter(w.store, j, c, JobWake(j.spec.id, BecameTerminal));
    RowsAfter(w.store, j, c, JobWake(j.spec.id, Settled));
  }

  lemma Reenters(ws: iset<World>, w: World, j: Job, price: Quote, result: ProviderResult) returns (w': World, j': Job)
    requires Closed(ws, false) && w in ws && At(w, 2, j, Entering(result)) && w.threads.Keys == {1, 2} && Reclaimable(j, price) && Silent(w.store, j.spec.id)
    ensures w' in ws && At(w', 2, j', Checking(j', j'.assets, price)) && w'.ledger == w.ledger && w'.threads.Keys == {1, 2} && w'.threads[1] == w.threads[1]
    ensures j'.spec == j.spec && Reclaimable(j', price) && Silent(w'.store, j.spec.id)
  {
    var c;
    w', j', c := Resumes(ws, w, 2, j, price, result, false);
    RowsAfter(w.store, j, c, JobWake(j.spec.id, BecameTerminal));
    RowsAfter(w.store, j, c, JobWake(j.spec.id, Settled));
  }

  /** It finds the binding gone and ends the job, asking for compensation and for the barrier. */
  lemma EndsJob(ws: iset<World>, w: World, j: Job, price: Quote) returns (w': World, j': Job)
    requires Closed(ws, false) && w in ws && At(w, 2, j, Checking(j, j.assets, price)) && w.threads.Keys == {1, 2}
    requires Reclaimable(j, price) && Silent(w.store, j.spec.id) && price.points > 0
    ensures w' in ws && Scene(w', j') && w'.ledger == w.ledger && w'.threads.Keys == {1, 2} && w'.threads[1] == w.threads[1]
    ensures Ended(j', j.spec, price) && j'.comp.CompPending?
    ensures var o := w'.store.outbox;
            && JobWake(j.spec.id, BecameTerminal) in o && o[JobWake(j.spec.id, BecameTerminal)].status.RowPending?
            && JobWake(j.spec.id, Settled) !in o
  {
    var m, c := FailPlan(j, price);
    w', j' := Goes(ws, w, 2, j, Checking(j, j.assets, price), Binding(true, false, CommitOk), m, ThenDone, c, false);
    RowsAfter(w.store, j, c, JobWake(j.spec.id, BecameTerminal));
    RowsAfter(w.store, j, c, JobWake(j.spec.id, Settled));
  }

  // ---------------------------------------------------------------- compensation

  /** The ledger already answers this refund. */
  ghost predicate Replays(l: Billing.Ledger, r: Billing.Request) {
    && Billing.ValidRequest(r, Billing.Refund) && r.key in l.byKey && l.byKey[r.key] in l.txns
    && Billing.SameMutation(l.txns[l.byKey[r.key]], Billing.Refund, r)
  }

  /** The refund goes through, leaving the ledger as `l'`. */
  ghost predicate Refunds(l: Billing.Ledger, r: Billing.Request, l': Billing.Ledger, receipt: Billing.Receipt) {
    Billing.Mutate(l, r, Billing.Refund) == (l', Ok(receipt)) && receipt.txn.points == r.points && Replays(l', r)
  }

  lemma ReplayRefunds(l: Billing.Ledger, r: Billing.Request)
    requires Replays(l, r)
    ensures Refunds(l, r, l, Billing.Receipt(l.byKey[r.key], l.txns[l.byKey[r.key]], true))
  {
  }

  lemma NothingRefunded(t: Billing.TxnId, x: Billing.Txn)
    requires x.kind == Billing.Charge
    ensures Billing.Refunded(map[t := x], t) == 0
  {
    assert Billing.RefundsOf(map[t := x], t) == map[];
  }

  lemma FirstRefund(l: Billing.Ledger, j: Job, price: Quote) returns (l': Billing.Ledger, receipt: Billing.Receipt)
    requires Ended(j, j.spec, price) && j.spec.user != "" && l == AfterCharging(j, price)
    ensures Refunds(l, RefundRequest(j), l', receipt)
  {
    var r := RefundRequest(j);
    NothingRefunded(Billing.ChargeTxn(j.spec.id), ChargeEntry(j, price));
    assert Billing.RefundProblem(l, r).None?;
    l', receipt := Billing.Book(l, r, Billing.Refund).0, Billing.Book(l, r, Billing.Refund).1;
  }

  function AfterComp(m: CompMutation, j: Job): CompPc { if m.ClaimCompensation? then Refunding(j) else CompDone }

  function CompSaved(w: World, t: nat, j: Job, m: CompMutation, c: Change): World {
    World(Stored(w.store, j, c), w.ledger, w.threads[t := Compensator(j.spec.id, AfterComp(m, StampJob(j, c.job, 0)))])
  }

  lemma CompSwapIs(w: World, t: nat, j: Job, m: CompMutation, c: Change)
    requires Scene(w, j) && t in w.threads && w.threads[t] == Compensator(j.spec.id, CompSwapping(j, m)) && Storable(j, ByCompensation(m), c)
    ensures CompensatorSwap(w, t, 0) == CompSaved(w, t, j, m, c)
  {
    SwapStores(w, j, ByCompensation(m), c);
  }

  lemma CompSwapStep(w: World, t: nat)
    requires t in w.threads && w.threads[t].Compensator? && w.threads[t].cpc.CompSwapping?
    ensures Step(w, CompSwap(t, 0)) == CompensatorSwap(w, t, 0)
  {
  }

  lemma SceneAfter(w: World, j: Job, c: Change, w': World)
    requires Scene(w, j) && c.job.spec == j.spec && c.job.version == j.version && w'.store == Stored(w.store, j, c)
    ensures Scene(w', StampJob(j, c.job, 0))
  {
    assert w'.store.jobs == map[j.spec.id := StampJob(j, c.job, 0)];
  }

  lemma CompSwaps(ws: iset<World>, w: World, t: nat, j: Job, m: CompMutation, c: Change) returns (w': World, j': Job)
    requires Closed(ws, false) && w in ws && Scene(w, j) && t in w.threads && w.threads[t] == Compensator(j.spec.id, CompSwapping(j, m))
    requires Storable(j, ByCompensation(m), c)
    ensures w' in ws && j' == StampJob(j, c.job, 0) && Scene(w', j') && w' == CompSaved(w, t, j, m, c)
  {
    j', w' := StampJob(j, c.job, 0), CompSaved(w, t, j, m, c);
    CompSwapIs(w, t, j, m, c);
    CompSwapStep(w, t);
    SceneAfter(w, j, c, w');
  }

  lemma ClaimsCompensation(j: Job, price: Quote) returns (m: CompMutation, c: Change)
    requires Ended(j, j.spec, price)
    ensures m == ClaimCompensation(OWNER, 0) && Storable(j, ByCompensation(m), c) && c.events == []
    ensures var j' := StampJob(j, c.job, 0); Ended(j', j.spec, price) && j'.money == j.money
  {
    m := ClaimCompensation(OWNER, 0);
    c := Apply(ByCompensation(m), j, 0).value;
  }

  lemma StartsCompensation(ws: iset<World>, w: World, t: nat, j: Job, price: Quote) returns (w': World, j': Job, c: Change)
    requires Closed(ws, false) && w in ws && Scene(w, j) && t !in w.threads && Ended(j, j.spec, price) && j.comp.CompPending?
    ensures w' in ws && Scene(w', j') && Ended(j', j.spec, price) && j'.money == j.money && c.events == []
    ensures w' == World(Stored(w.store, j, c), w.ledger, w.threads[t := Compensator(j.spec.id, Refunding(j'))])
  {
    var m;
    m, c := ClaimsCompensation(j, price);
    var w1 := SetThread(w, t, Compensator(j.spec.id, CompSwapping(j, m)));
    assert Step(w, StartCompensation(t, j.spec.id, 0, OWNER, 0)) == w1;
    w', j' := CompSwaps(ws, w1, t, j, m, c);
    assert w'.threads == w.threads[t := Compensator(j.spec.id, Refunding(j'))];
  }

  lemma CallsRefund(ws: iset<World>, w: World, t: nat, j: Job, price: Quote, l': Billing.Ledger, receipt: Billing.Receipt) returns (w': World)
    requires Closed(ws, false) && w in ws && t in w.threads && w.threads[t] == Compensator(j.spec.id, Refunding(j)) && Ended(j, j.spec, price)
    requires Refunds(w.ledger, RefundRequest(j), l', receipt)
    ensures w' in ws
    ensures w' == World(w.store, l', w.threads[t := Compensator(j.spec.id, CompSwapping(j, CompleteCompensation(price.points, receipt.id, receipt.txn.balanceAfter)))])
  {
    w' := World(w.store, l', w.threads[t := Compensator(j.spec.id, CompSwapping(j, CompleteCompensation(price.points, receipt.id, receipt.txn.balanceAfter)))]);
    assert Step(w, CallRefund(t, Up)) == w';
  }

  lemma CompletesPlan(j: Job, price: Quote, receipt: Billing.Receipt) returns (m: CompMutation, c: Change)
    requires Ended(j, j.spec, price)
    ensures m == CompleteCompensation(price.points, receipt.id, receipt.txn.balanceAfter) && Storable(j, ByCompensation(m), c)
    ensures (exists e :: e in c.events && e.key == JobWake(j.spec.id, Settled)) && (forall e :: e in c.events ==> e.key != JobWake(j.spec.id, BecameTerminal))
    ensures var j' := StampJob(j, c.job, 0); Ended(j', j.spec, price) && j'.comp.CompCompleted?
  {
    m := CompleteCompensation(price.points, receipt.id, receipt.txn.balanceAfter);
    c := Apply(ByCompensation(m), j, 0).value;
    assert c.events[1].key == JobWake(j.spec.id, Settled);
  }

  /** The outbox after a whole compensation: its request for the barrier is new, or dropped because its key is taken. */
  ghost predicate SettledRowOnly(o: Outbox, o': Outbox, id: Id) {
    var wake, settled := JobWake(id, BecameTerminal), JobWake(id, Settled);
    && (wake in o ==> wake in o' && o'[wake] == o[wake]) && settled in o'
    && (if settled in o then o'[settled] == o[settled] else o'[settled].status.RowPending?)
  }

  /** The refund is answered and recorded. */
  lemma FinishesCompensation(ws: iset<World>, w: World, t: nat, j: Job, price: Quote, l': Billing.Ledger, receipt: Billing.Receipt)
    returns (w': World, j': Job, c: Change)
    requires Closed(ws, false) && w in ws && Scene(w, j) && t in w.threads && w.threads[t] == Compensator(j.spec.id, Refunding(j)) && Ended(j, j.spec, price)
    requires Refunds(w.ledger, RefundRequest(j), l', receipt)
    ensures w' in ws && Scene(w', j') && Ended(j', j.spec, price) && j'.comp.CompCompleted?
    ensures w' == World(Stored(w.store, j, c), l', w.threads[t := Compensator(j.spec.id, CompDone)])
    ensures (exists e :: e in c.events && e.key == JobWake(j.spec.id, Settled)) && (forall e :: e in c.events ==> e.key != JobWake(j.spec.id, BecameTerminal))
  {
    var m;
    m, c := CompletesPlan(j, price, receipt);
    var w1 := CallsRefund(ws, w, t, j, price, l', receipt);
    w', j' := CompSwaps(ws, w1, t, j, m, c);
    LastUpdate(w.threads, t, w1.threads[t], Compensator(j.spec.id, CompDone));
  }

  lemma Compensates(ws: iset<World>, w: World, t: nat, j: Job, price: Quote, l': Billing.Ledger, receipt: Billing.Receipt) returns (w': World, j': Job)
    requires Closed(ws, false) && w in ws && Scene(w, j) && t !in w.threads && Ended(j, j.spec, price) && j.comp.CompPending?
    requires Refunds(w.ledger, RefundRequest(j), l', receipt)
    ensures w' in ws && Scene(w', j') && Ended(j', j.spec, price) && j'.comp.CompCompleted? && w'.ledger == l'
    ensures w'.threads == w.threads[t := Compensator(j.spec.id, CompDone)] && SettledRowOnly(w.store.outbox, w'.store.outbox, j.spec.id)
  {
    var w1, j1, c1 := StartsCompensation(ws, w, t, j, price);
    assert RefundRequest(j1) == RefundRequest(j);
    var c2;
    w', j', c2 := FinishesCompensation(ws, w1, t, j1, price, l', receipt);
    CompensationRows(w.store, j, c1, j1, c2);
    LastUpdate(w.threads, t, w1.threads[t], Compensator(j.spec.id, CompDone));
  }

  lemma CompensationRows(s: Store, j: Job, c1: Change, j1: Job, c2: Change)
    requires c1.events == [] && j1.spec.id == j.spec.id
    requires (exists e :: e in c2.events && e.key == JobWake(j.spec.id, Settled)) && (forall e :: e in c2.events ==> e.key != JobWake(j.spec.id, BecameTerminal))
    ensures SettledRowOnly(s.outbox, Stored(Stored(s, j, c1), j1, c2).outbox, j.spec.id)
  {
    RowsAfter(s, j, c1, JobWake(j.spec.id, BecameTerminal));
    RowsAfter(s, j, c1, JobWake(j.spec.id, Settled));
    RowsAfter(Stored(s, j, c1), j1, c2, JobWake(j.spec.id, BecameTerminal));
    RowsAfter(Stored(s, j, c1), j1, c2, JobWake(j.spec.id, Settled));
  }

  // ---------------------------------------------------------------- the late reader

  lemma LatePlan(j: Job, price: Quote, f: Failure) returns (m: Mutation, c: Change)
    requires Ended(j, j.spec, price) && !f.retryable
    ensures Advance(CommitRereading(f), j, Read, OWNER, 0) == Swapping(j, m, ThenDone) && Storable(j, m, c)
    ensures var j' := StampJob(j, c.job, 0); Ended(j', j.spec, price) && j'.comp.CompPending?
  {
    m := ByFinalizer(FailAfterCharge(true));
    c := Apply(m, j, 0).value;
  }

  /** Both requests for the barrier are on record and stay as they are. */
  ghost predicate WakesKept(o: Outbox, o': Outbox, id: Id) {
    var wake, settled := JobWake(id, BecameTerminal), JobWake(id, Settled);
    wake in o && settled in o && wake in o' && settled in o' && o'[wake] == o[wake] && o'[settled] == o[settled]
  }

  /** The first worker rereads the ended job and asks for compensation once more; its requests carry used keys and are dropped. */
  lemma Reopens(ws: iset<World>, w: World, j: Job, price: Quote, f: Failure) returns (w': World, j': Job)
    requires Closed(ws, false) && w in ws && At(w, 1, j, CommitRereading(f)) && Ended(j, j.spec, price) && !f.retryable
    requires JobWake(j.spec.id, BecameTerminal) in w.store.outbox && JobWake(j.spec.id, Settled) in w.store.outbox
    ensures w' in ws && Scene(w', j') && Ended(j', j.spec, price) && j'.comp.CompPending? && w'.ledger == w.ledger
    ensures w'.threads.Keys == w.threads.Keys && WakesKept(w.store.outbox, w'.store.outbox, j.spec.id)
  {
    var m, c := LatePlan(j, price, f);
    w', j' := Goes(ws, w, 1, j, CommitRereading(f), Read, m, ThenDone, c, false);
    RowsAfter(w.store, j, c, JobWake(j.spec.id, BecameTerminal));
    RowsAfter(w.store, j, c, JobWake(j.spec.id, Settled));
  }

  // ---------------------------------------------------------------- the relay

  lemma OnlyJob(s: Store, j: Job)
    requires StoreInv(s) && s.jobs == map[j.spec.id := j] && j.spec.batch in s.batches
    ensures Linked(s, j.spec.batch) && JobsOf(s, j.spec.batch) == [j]
  {
    var b := j.spec.batch;
    assert BatchLink(s, b);
    var ids := s.jobIds[b];
    assert forall i :: 0 <= i < |ids| ==> ids[i] == j.spec.id;
    assert ids[0] == ids[|ids| - 1];
  }

  /** The barrier waits: the compensation is open again. */
  lemma BarrierWaits(s: Store, j: Job)
    requires StoreInv(s) && s.jobs == map[j.spec.id := j] && j.spec.batch in s.batches && Unsettled(j)
    requires !TerminalBatch(s.batches[j.spec.batch].status) && !s.batches[j.spec.batch].cancelRequested
    ensures var r := TryFinalize(s, j.spec.batch, 0);
            && r.Ok? && r.value.jobs == s.jobs && r.value.outbox == s.outbox && j.spec.batch in r.value.batches
            && !TerminalBatch(r.value.batches[j.spec.batch].status) && !r.value.batches[j.spec.batch].cancelRequested
  {
    var b := j.spec.batch;
    OnlyJob(s, j);
    BarrierIs(s, b, 0);
    assert [j][0] in JobsOf(s, b);
    assert BatchState(s, b);
    WaitingBarrier(s, b, 0);
    FinalizedBatch(s, b, 0);
    FinalizedSparesJobs(s, b, 0);
  }

  ghost predicate Used(s: Store, s': Store, key: OutboxKey) {
    && key in s'.outbox && s'.outbox[key].status.RowPublished? && s'.outbox.Keys == s.outbox.Keys
    && forall k :: k in s.outbox && k != key ==> s'.outbox[k] == s.outbox[k]
  }

  lemma RelaysRow(ws: iset<World>, w: World, t: nat, j: Job, key: OutboxKey) returns (w': World)
    requires Closed(ws, false) && w in ws && StoreInv(w.store) && Scene(w, j) && Unsettled(j) && t !in w.threads
    requires key.JobWake? && key in w.store.outbox && w.store.outbox[key].status.RowPending?
    ensures w' in ws && Scene(w', j) && w'.ledger == w.ledger && w'.threads == w.threads && Used(w.store, w'.store, key)
  {
    RelayedWaits(w, j, key);
    w' := w.(store := Relayed(w.store, key, true, 0));
    RelayIsThreeSteps(ws, w, t, key);
  }

  /** The rows that request this batch's barrier are the job's own. */
  lemma WakeRows(s: Store, j: Job, k: OutboxKey)
    requires Rows(s) && s.jobs == map[j.spec.id := j] && k in s.outbox
    ensures k.JobWake? ==> k.job == j.spec.id && s.outbox[k].event.kind.FinalizeRequested? && s.outbox[k].event.batch == j.spec.batch
    ensures s.outbox[k].event.kind.FinalizeRequested? ==>
      k.JobWake? || (k.CancelWake? && s.outbox[k].event.batch in s.batches && s.batches[s.outbox[k].event.batch].cancelRequested)
  {
    assert RowShape(k, s.outbox[k]) && RowMeaning(s, s.outbox[k]);
  }

  lemma RelayedIs(s: Store, key: OutboxKey, s1: Store)
    requires key in s.outbox && s.outbox[key].event.kind.FinalizeRequested? && s1.outbox == s.outbox
    requires TryFinalize(s, s.outbox[key].event.batch, 0) == Ok(s1)
    ensures MayDeliver(s, key, 0) && Relayed(s, key, true, 0) == s1.(outbox := s.outbox[key := s.outbox[key].(status := RowPublished)])
  {
  }

  lemma RelayedWaits(w: World, j: Job, key: OutboxKey)
    requires StoreInv(w.store) && Scene(w, j) && Unsettled(j)
    requires key.JobWake? && key in w.store.outbox && w.store.outbox[key].status.RowPending?
    ensures MayDeliver(w.store, key, 0)
    ensures var s' := Relayed(w.store, key, true, 0); Used(w.store, s', key) && Scene(w.(store := s'), j)
  {
    WakeRows(w.store, j, key);
    BarrierWaits(w.store, j);
    var s1 := TryFinalize(w.store, j.spec.batch, 0).value;
    RelayedIs(w.store, key, s1);
    SceneKept(w, j, key, s1, Relayed(w.store, key, true, 0));
  }

  lemma SceneKept(w: World, j: Job, key: OutboxKey, s1: Store, s': Store)
    requires key in w.store.outbox && Scene(w.(store := s1), j)
    requires s' == s1.(outbox := w.store.outbox[key := w.store.outbox[key].(status := RowPublished)])
    ensures Used(w.store, s', key) && Scene(w.(store := s'), j)
  {
  }

  lemma RelayIsThreeSteps(ws: iset<World>, w: World, t: nat, key: OutboxKey)
    requires Closed(ws, false) && w in ws && t !in w.threads
    requires key in w.store.outbox && w.store.outbox[key].status.RowPending? && MayDeliver(w.store, key, 0)
    ensures w.(store := Relayed(w.store, key, true, 0)) in ws
  {
    TakeStep(w, t, key);
    var w1 := w.(threads := w.threads[t := Relay(key, Holding)]);
    PublishStep(w1, t, key, true, 0);
    var w2 := World(Consumed(w.store, key, 0), w.ledger, w1.threads[t := Relay(key, Tried)]);
    assert w2 in ws;
    SettleStep(w2, t, key, true, 0);
    assert w2.threads - {t} == w.threads;
  }

  // ---------------------------------------------------------------- the end

  /** Nothing holds the batch back, and nothing will wake its barrier. */
  ghost predicate Asleep(w: World, b: Id) { Stuck(w.store, b) && forall k :: !Awake(w, k, b) }

  lemma EndsAsleep(w: World, j: Job, price: Quote)
    requires StoreInv(w.store) && Scene(w, j) && Ended(j, j.spec, price) && j.comp.CompCompleted?
    requires forall trigger :: JobWake(j.spec.id, trigger) in w.store.outbox ==> !w.store.outbox[JobWake(j.spec.id, trigger)].status.RowPending?
    ensures Asleep(w, j.spec.batch)
  {
    StuckEnds(w.store, j, price);
    forall k ensures !Awake(w, k, j.spec.batch) { NoRowWakes(w, j, k); }
  }

  lemma StuckEnds(s: Store, j: Job, price: Quote)
    requires StoreInv(s) && s.jobs == map[j.spec.id := j] && Ended(j, j.spec, price) && j.comp.CompCompleted?
    requires j.spec.batch in s.batches && !TerminalBatch(s.batches[j.spec.batch].status)
    ensures Stuck(s, j.spec.batch)
  {
    OnlyJob(s, j);
  }

  lemma NoRowWakes(w: World, j: Job, k: OutboxKey)
    requires Rows(w.store) && Scene(w, j)
    requires forall trigger :: JobWake(j.spec.id, trigger) in w.store.outbox ==> !w.store.outbox[JobWake(j.spec.id, trigger)].status.RowPending?
    ensures !Awake(w, k, j.spec.batch)
  {
    if k in w.store.outbox {
      WakeRows(w.store, j, k);
      if k.JobWake? { assert k == JobWake(j.spec.id, k.trigger); }
    }
  }

  // ---------------------------------------------------------------- the run

  ghost predicate Reached(w: World) { exists labels :: Run(labels) == w }

  ghost function Reachable(): iset<World> { iset w: World | Reached(w) }

  lemma ReachedNext(w: World, l: Label)
    requires Reached(w)
    ensures Reached(Step(w, l))
  {
    var labels :| Run(labels) == w;
    RunNext(labels, w, l, Step(w, l));
  }

  lemma ReachableIsClosed()
    ensures Closed(Reachable(), false)
  {
    forall w, l | Reached(w) ensures Reached(Step(w, l)) { ReachedNext(w, l); }
  }

  lemma ReachedIsSound(w: World)
    requires w in Reachable()
    ensures StoreInv(w.store)
  {
    var labels :| Run(labels) == w;
    RunCoherent(labels);
  }

  /** The first worker, charged, before any request for the barrier. */
  lemma FirstWorker() returns (w: World, j: Job, price: Quote)
    ensures w in Reachable() && At(w, 1, j, Rechecking(j, j.assets, price)) && w.threads.Keys == {1} && w.ledger == AfterCharging(j, price)
    ensures price.points > 0 && Reclaimable(j, price) && Silent(w.store, j.spec.id)
  {
    w, j, price := ChargedQuietly();
    var labels :| ExclusiveRun(labels) && Coverage.LosslessRun(labels) && Run(labels) == w;
    QuietIsSilent(labels, w, j);
  }

  lemma QuietIsSilent(labels: seq<Label>, w: World, j: Job)
    requires ExclusiveRun(labels) && Run(labels) == w && Scene(w, j) && !Terminal(j) && j.comp.NotRequired?
    ensures Silent(w.store, j.spec.id)
  {
    ExclusiveIsPunctual(labels);
    RunLosesNone(labels);
    RunCoherent(labels);
    NoWakeYet(w.store, j);
  }

  lemma NoWakeYet(s: Store, j: Job)
    requires Rows(s) && SettledRows(s) && s.jobs == map[j.spec.id := j] && !Terminal(j) && j.comp.NotRequired?
    ensures Silent(s, j.spec.id)
  {
    if JobWake(j.spec.id, BecameTerminal) in s.outbox { WakeMeansTerminal(s, j.spec.id); }
  }

  lemma WakeMeansTerminal(s: Store, id: Id)
    requires Rows(s) && JobWake(id, BecameTerminal) in s.outbox
    ensures id in s.jobs && Terminal(s.jobs[id])
  {
    assert RowMeaning(s, s.outbox[JobWake(id, BecameTerminal)]);
  }

  const REFUSAL := Failure(BindingStage, "commit", false)

  /** The job is charged and failed, its compensation pending, and the first worker still about to reread it. */
  ghost predicate Overtaken(w: World, j: Job, price: Quote) {
    && At(w, 1, j, CommitRereading(REFUSAL)) && w.threads.Keys == {1, 2} && Ended(j, j.spec, price) && j.spec.user != ""
    && JobWake(j.spec.id, BecameTerminal) in w.store.outbox && w.store.outbox[JobWake(j.spec.id, BecameTerminal)].status.RowPending?
  }

  /** While the first worker holds a refused commit, the second ends the job. */
  lemma SecondEnds() returns (w: World, j: Job, price: Quote)
    ensures w in Reachable() && Overtaken(w, j, price) && j.comp.CompPending? && w.ledger == AfterCharging(j, price)
    ensures JobWake(j.spec.id, Settled) !in w.store.outbox
  {
    ReachableIsClosed();
    var w0, j0, price' := FirstWorker();
    price := price';
    var w1 := CommitFails(Reachable(), w0, 1, j0, price, REFUSAL);
    var w2, j2, result := Reclaims(Reachable(), w1, j0, price);
    var w3, j3 := Reenters(Reachable(), w2, j2, price, result);
    w, j := EndsJob(Reachable(), w3, j3, price);
    ChargeKept(j0, j, price);
  }

  lemma ChargeKept(a: Job, b: Job, price: Quote)
    requires b.spec == a.spec && ChargeKeyOf(a) == ChargeKeyOf(b)
    ensures AfterCharging(a, price) == AfterCharging(b, price)
  {
  }

  /** The compensation is settled and reopened. */
  lemma ReopensSettled() returns (w: World, j: Job, price: Quote)
    ensures w in Reachable() && Scene(w, j) && Ended(j, j.spec, price) && j.comp.CompPending? && w.threads.Keys == {1, 2, 3}
    ensures Replays(w.ledger, RefundRequest(j))
    ensures forall trigger :: JobWake(j.spec.id, trigger) in w.store.outbox && w.store.outbox[JobWake(j.spec.id, trigger)].status.RowPending?
  {
    ReachableIsClosed();
    var w0, j0, price' := SecondEnds();
    price := price';
    var l', receipt := FirstRefund(w0.ledger, j0, price);
    var w1, j1 := Compensates(Reachable(), w0, 3, j0, price, l', receipt);
    w, j := Reopens(Reachable(), w1, j1, price, REFUSAL);
    assert RefundRequest(j) == RefundRequest(j0);
    forall trigger
      ensures JobWake(j.spec.id, trigger) in w.store.outbox && w.store.outbox[JobWake(j.spec.id, trigger)].status.RowPending?
    {
      assert trigger.BecameTerminal? || trigger.Settled?;
    }
  }

  lemma UsesRequest(w: World, j: Job, key: OutboxKey) returns (w': World)
    requires w in Reachable() && Scene(w, j) && Unsettled(j) && 4 !in w.threads
    requires key.JobWake? && key in w.store.outbox && w.store.outbox[key].status.RowPending?
    ensures w' in Reachable() && Scene(w', j) && w'.ledger == w.ledger && w'.threads == w.threads && Used(w.store, w'.store, key)
  {
    ReachableIsClosed();
    ReachedIsSound(w);
    w' := RelaysRow(Reachable(), w, 4, j, key);
  }

  /** Both requests are relayed while the batch still has to wait. */
  lemma RequestsUsedUp() returns (w: World, j: Job, price: Quote)
    ensures w in Reachable() && Scene(w, j) && Ended(j, j.spec, price) && j.comp.CompPending? && w.threads.Keys == {1, 2, 3}
    ensures Replays(w.ledger, RefundRequest(j))
    ensures forall trigger :: JobWake(j.spec.id, trigger) in w.store.outbox && w.store.outbox[JobWake(j.spec.id, trigger)].status.RowPublished?
  {
    var w0, j0, price' := ReopensSettled();
    j, price := j0, price';
    var w1 := UsesRequest(w0, j, JobWake(j.spec.id, BecameTerminal));
    w := UsesRequest(w1, j, JobWake(j.spec.id, Settled));
    forall trigger
      ensures JobWake(j.spec.id, trigger) in w.store.outbox && w.store.outbox[JobWake(j.spec.id, trigger)].status.RowPublished?
    {
      assert trigger.BecameTerminal? || trigger.Settled?;
    }
  }

  /** The compensation completes again; its request for the barrier carries a used key. */
  lemma SettlesAgain() returns (w: World, j: Job, price: Quote)
    ensures w in Reachable() && Scene(w, j) && Ended(j, j.spec, price) && j.comp.CompCompleted?
    ensures forall trigger :: JobWake(j.spec.id, trigger) in w.store.outbox ==> !w.store.outbox[JobWake(j.spec.id, trigger)].status.RowPending?
  {
    ReachableIsClosed();
    var w0, j0, price' := RequestsUsedUp();
    price := price';
    var r := RefundRequest(j0);
    ReplayRefunds(w0.ledger, r);
    w, j := Compensates(Reachable(), w0, 5, j0, price, w0.ledger, Billing.Receipt(w0.ledger.byKey[r.key], w0.ledger.txns[w0.ledger.byKey[r.key]], true));
    forall trigger | JobWake(j.spec.id, trigger) in w.store.outbox ensures !w.store.outbox[JobWake(j.spec.id, trigger)].status.RowPending? {
      assert trigger.BecameTerminal? || trigger.Settled?;
    }
  }

  lemma SleepsInReach(w: World, j: Job, price: Quote)
    requires w in Reachable() && Scene(w, j) && Ended(j, j.spec, price) && j.comp.CompCompleted?
    requires forall trigger :: JobWake(j.spec.id, trigger) in w.store.outbox ==> !w.store.outbox[JobWake(j.spec.id, trigger)].status.RowPending?
    ensures Asleep(w, j.spec.batch)
  {
    ReachedIsSound(w);
    EndsAsleep(w, j, price);
  }

  /**
   With a late write a wake-up can be lost: some run ends with a batch that nothing holds back and no request left that would end it.
   By the theorem on punctual runs every such run contains a late write.
   */
  lemma OverlapLosesWakeUp()
    ensures exists labels, b :: Asleep(Run(labels), b) && !NoneLost(Run(labels)) && !PunctualRun(labels)
  {
    var w, j, price := SettlesAgain();
    SleepsInReach(w, j, price);
    var labels :| Run(labels) == w;
    assert Asleep(Run(labels), j.spec.batch);
    if PunctualRun(labels) { RunLosesNone(labels); }
  }
}
