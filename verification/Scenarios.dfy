/** Runs of a one-job workflow, step by step: the states that the limits of the theorems speak of are reached. */
module Scenarios {
  import opened Basics
  import opened GenerationModels
  import opened JobMutations
  import opened WorkflowStore
  import opened BatchTransactions
  import opened StoreInvariants
  import opened Workers
  import opened World
  import opened Snapshots
  import opened StoredChanges
  import opened ExclusiveRuns
  import opened Coverage
  import Billing

  // ---------------------------------------------------------------- one step

  /** A set of worlds that no step leaves; if `quiet`, no step that keeps the lease and answers nothing lossy. */
  ghost predicate Closed(ws: iset<World>, quiet: bool) {
    forall w, l :: w in ws && (quiet ==> LeaseExclusive(w, l) && !Lossy(w, l)) ==> Step(w, l) in ws
  }

  const OWNER := "worker"

  /** The store holds this one job, and its batch is open and not cancelled. */
  ghost predicate Scene(w: World, j: Job) {
    && w.store.jobs == map[j.spec.id := j] && j.version >= 1
    && j.spec.batch in w.store.batches && !TerminalBatch(w.store.batches[j.spec.batch].status) && !w.store.batches[j.spec.batch].cancelRequested
  }

  ghost predicate At(w: World, t: nat, j: Job, pc: Pc) {
    Scene(w, j) && t in w.threads && w.threads[t].Worker? && w.threads[t].job == j.spec.id && w.threads[t].pc == pc
  }

  function Moved(w: World, t: nat, pc: Pc): World
    requires t in w.threads && w.threads[t].Worker?
  {
    SetThread(w, t, w.threads[t].(pc := pc))
  }

  lemma Moves(ws: iset<World>, w: World, t: nat, j: Job, pc: Pc, a: Answer, quiet: bool) returns (w': World)
    requires Closed(ws, quiet) && w in ws && At(w, t, j, pc) && (quiet ==> !LossyAnswer(pc, j, a))
    ensures w' in ws && w' == Moved(w, t, Advance(pc, j, a, OWNER, 0)) && At(w', t, j, Advance(pc, j, a, OWNER, 0))
  {
    w' := Moved(w, t, Advance(pc, j, a, OWNER, 0));
    assert Step(w, WorkerStep(t, a, OWNER, 0)) == w';
  }

  function Stored(s: Store, j: Job, c: Change): Store {
    s.(jobs := s.jobs[j.spec.id := StampJob(j, c.job, 0)], outbox := AppendAll(s.outbox, EnsureLifecycle(c.events, j, c.job, true), 0))
  }

  /** The mutation goes through as far as the job is concerned. */
  predicate Storable(j: Job, m: Mutation, c: Change) {
    Apply(m, j, 0) == Ok(c) && c.job.spec == j.spec && c.job.version == j.version && (c.job.status == j.status || JobTransition(j.status, c.job.status))
  }

  lemma SwapStores(w: World, j: Job, m: Mutation, c: Change)
    requires Scene(w, j) && Storable(j, m, c)
    ensures SwapResult(w.store, j, m, 0) == Ok((Stored(w.store, j, c), StampJob(j, c.job, 0)))
  {
  }

  function Saved(w: World, t: nat, j: Job, c: Change, pc: Pc): World
    requires t in w.threads && w.threads[t].Worker?
  {
    World(Stored(w.store, j, c), w.ledger, w.threads[t := w.threads[t].(pc := pc)])
  }

  lemma Swaps(ws: iset<World>, w: World, t: nat, j: Job, m: Mutation, next: Next, c: Change, quiet: bool) returns (w': World, j': Job)
    requires Closed(ws, quiet) && w in ws && At(w, t, j, Swapping(j, m, next)) && Storable(j, m, c)
    ensures w' in ws && j' == StampJob(j, c.job, 0) && At(w', t, j', AfterSwap(Swapping(j, m, next), j', OWNER, 0))
    ensures w' == Saved(w, t, j, c, AfterSwap(Swapping(j, m, next), j', OWNER, 0))
  {
    j' := StampJob(j, c.job, 0);
    SwapStores(w, j, m, c);
    w' := Saved(w, t, j, c, AfterSwap(Swapping(j, m, next), j', OWNER, 0));
    assert Step(w, Swap(t, 0, OWNER, 0, false)) == w';
    assert w'.store.jobs == map[j'.spec.id := j'];
  }

  /** An answer, and the compare-and-swap it leads to. */
  lemma Goes(ws: iset<World>, w: World, t: nat, j: Job, pc: Pc, a: Answer, m: Mutation, next: Next, c: Change, quiet: bool)
    returns (w': World, j': Job)
    requires Closed(ws, quiet) && w in ws && At(w, t, j, pc) && (quiet ==> !LossyAnswer(pc, j, a))
    requires Advance(pc, j, a, OWNER, 0) == Swapping(j, m, next) && Storable(j, m, c)
    ensures w' in ws && j' == StampJob(j, c.job, 0) && At(w', t, j', AfterSwap(Swapping(j, m, next), j', OWNER, 0))
    ensures w' == Saved(w, t, j, c, AfterSwap(Swapping(j, m, next), j', OWNER, 0))
  {
    var w1 := Moves(ws, w, t, j, pc, a, quiet);
    MovedFirst(w, t, Swapping(j, m, next), j, c, AfterSwap(Swapping(j, m, next), StampJob(j, c.job, 0), OWNER, 0));
    w', j' := Swaps(ws, w1, t, j, m, next, c, quiet);
  }

  lemma MovedFirst(w: World, t: nat, pc: Pc, j: Job, c: Change, pc': Pc)
    requires t in w.threads && w.threads[t].Worker?
    ensures Saved(Moved(w, t, pc), t, j, c, pc') == Saved(w, t, j, c, pc')
  {
    assert Moved(w, t, pc).threads[t := w.threads[t].(pc := pc')] == w.threads[t := w.threads[t].(pc := pc')];
  }

  // ---------------------------------------------------------------- up to a recorded charge

  /** A command for one job with a single attempt. */
  ghost predicate OneJob(c: CreateCommand, r: JobRequest) {
    && c.operation != "" && c.session != "" && c.key != "" && c.batch != "" && c.jobs == [r]
    && r.id != "" && r.key != "" && r.user != "" && r.maxAttempts == 1 && r.billingKey.None?
  }

  lemma PutsOne(j: Job)
    ensures PutJobs(map[], [j]) == map[j.spec.id := j]
  {
    assert [j][..0] == [];
  }

  lemma CreatesOne(c: CreateCommand, r: JobRequest)
    requires OneJob(c, r)
    ensures CreateWorkflow(EMPTY, c, 0) == Ok((WithWorkflow(EMPTY, c, NewJobs(c, 0), 0), true))
    ensures NewJobs(c, 0) == [NewJob(c, DefaultAllRequired(c), r, 0)]
  {
    assert c.jobs[..0] == [] && JobsProblem(EMPTY, c.jobs).None?;
  }

  lemma Created(ws: iset<World>, c: CreateCommand, r: JobRequest) returns (w: World, j: Job)
    requires Closed(ws, true) && START in ws && OneJob(c, r)
    ensures w in ws && j == NewJob(c, DefaultAllRequired(c), r, 0) && Scene(w, j) && w.threads == map[] && w.ledger == START.ledger
  {
    CreatesOne(c, r);
    DoCreateIs(EMPTY, c, 0);
    j := NewJob(c, DefaultAllRequired(c), r, 0);
    w := START.(store := WithWorkflow(EMPTY, c, NewJobs(c, 0), 0));
    assert Step(START, StoreStep(Create(c, 0))) == w;
    PutsOne(j);
  }

  /** The account of the job's user, with so much on it and nothing booked. */
  function Funded(j: Job, points: int): Billing.Ledger {
    Billing.Ledger(map[j.spec.user := Billing.Account(points, 1)], map[], map[])
  }

  lemma Opened(ws: iset<World>, w: World, j: Job, points: int) returns (w': World)
    requires Closed(ws, true) && w in ws && w.ledger == START.ledger && j.spec.user != "" && points >= 0
    ensures w' in ws && w' == w.(ledger := Funded(j, points))
  {
    w' := w.(ledger := Funded(j, points));
    assert Step(w, OpenAccount(j.spec.user, points)) == w';
  }

  lemma Started(ws: iset<World>, w: World, t: nat, j: Job, quiet: bool) returns (w': World)
    requires Closed(ws, quiet) && w in ws && Scene(w, j) && t !in w.threads && Due(j, 0) && (quiet ==> w.threads == map[])
    ensures w' in ws && w' == SetThread(w, t, Worker(j.spec.id, j, Loaded(j))) && At(w', t, j, Loaded(j))
  {
    w' := SetThread(w, t, Worker(j.spec.id, j, Loaded(j)));
    assert Step(w, StartWorker(t, j.spec.id, 0)) == w';
  }

  /** What the provider delivers, and what it costs. */
  ghost predicate Offer(result: ProviderResult, price: Quote) { result.task != "" && result.assets != [] && price.points > 0 }

  /** What stays the same while the worker is on its way to the charge. */
  ghost predicate OnItsWay(j: Job, spec: JobSpec) {
    && j.spec == spec && spec.maxAttempts == 1 && spec.user != "" && !j.cancelRequested && j.comp.NotRequired? && j.sched.retryCount == 0
    && j.money == Money(NotStarted, None, None, 0, 0, 0, map[], None, None)
  }

  lemma Submits(ws: iset<World>, w: World, t: nat, j: Job) returns (w': World, j': Job)
    requires Closed(ws, true) && w in ws && At(w, t, j, Loaded(j))
    requires OnItsWay(j, j.spec) && j.status.Queued? && j.task == "" && j.sched.attempt == 0 && j.quote.None?
    ensures w' in ws && At(w', t, j', Calling(j', SubmitCall(false))) && w'.ledger == w.ledger && w'.threads.Keys == w.threads.Keys
    ensures OnItsWay(j', j.spec) && j'.status.Running? && j'.sched.attempt == 1 && j'.quote.None?
  {
    var w1 := Moves(ws, w, t, j, Loaded(j), Read, true);
    var m := ByWorker(Submit(OWNER, 0));
    w', j' := Goes(ws, w1, t, j, Routing(j), Registered(true), m, ThenCall(SubmitCall(false)), Apply(m, j, 0).value, true);
  }

  lemma CompletePlan(j: Job, result: ProviderResult, price: Quote, response: ProviderResponse) returns (m: Mutation, c: Change)
    requires OnItsWay(j, j.spec) && j.status.Running? && j.quote.None? && Offer(result, price)
    requires response == ProviderResponse(CompletedState, result.task, 0, result)
    ensures Advance(Calling(j, SubmitCall(false)), j, Responded(response), OWNER, 0) == Swapping(j, m, ThenFinalize(result)) && Storable(j, m, c)
    ensures var j' := StampJob(j, c.job, 0);
            && OnItsWay(j', j.spec) && j'.status.Finalizing? && j'.sched == j.sched && j'.assets == result.assets
            && j'.lease.until == Some(0) && j'.quote.None?
  {
    m := ByWorker(Complete(result, OWNER, 0));
    c := Apply(m, j, 0).value;
  }

  lemma Completes(ws: iset<World>, w: World, t: nat, j: Job, result: ProviderResult, price: Quote) returns (w': World, j': Job)
    requires Closed(ws, true) && w in ws && At(w, t, j, Calling(j, SubmitCall(false))) && Offer(result, price)
    requires OnItsWay(j, j.spec) && j.status.Running? && j.quote.None?
    ensures w' in ws && At(w', t, j', Entering(result)) && w'.ledger == w.ledger && w'.threads.Keys == w.threads.Keys
    ensures OnItsWay(j', j.spec) && j'.status.Finalizing? && j'.sched == j.sched && j'.assets == result.assets && j'.lease.until == Some(0) && j'.quote.None?
  {
    var response := ProviderResponse(CompletedState, result.task, 0, result);
    var m, c := CompletePlan(j, result, price, response);
    w', j' := Goes(ws, w, t, j, Calling(j, SubmitCall(false)), Responded(response), m, ThenFinalize(result), c, true);
  }

  /** The job is in finalization and carries its assets. */
  ghost predicate Equipped(j: Job) { j.status.Finalizing? && j.assets != [] && j.lease.until == Some(0) && j.sched.attempt == 1 }

  lemma EnterPlan(j: Job, result: ProviderResult)
    requires OnItsWay(j, j.spec) && Equipped(j) && j.quote.None?
    ensures var m := ByFinalizer(BeginFinalize(result));
            var c := Apply(m, j, 0).value;
            var j' := StampJob(j, c.job, 0);
            && Advance(Entering(result), j, Read, OWNER, 0) == Swapping(j, m, ThenQuote(result))
            && Storable(j, m, c) && OnItsWay(j', j.spec) && Equipped(j') && j'.quote.None?
  {
  }

  lemma Enters(ws: iset<World>, w: World, t: nat, j: Job, result: ProviderResult) returns (w': World, j': Job)
    requires Closed(ws, true) && w in ws && At(w, t, j, Entering(result)) && OnItsWay(j, j.spec) && Equipped(j) && j.quote.None?
    ensures w' in ws && At(w', t, j', Quoting(j', result)) && w'.ledger == w.ledger && w'.threads.Keys == w.threads.Keys
    ensures OnItsWay(j', j.spec) && Equipped(j') && j'.quote.None?
  {
    EnterPlan(j, result);
    var m := ByFinalizer(BeginFinalize(result));
    w', j' := Goes(ws, w, t, j, Entering(result), Read, m, ThenQuote(result), Apply(m, j, 0).value, true);
  }

  lemma FreezePlan(j: Job, result: ProviderResult, price: Quote)
    requires OnItsWay(j, j.spec) && Equipped(j) && j.quote.None? && Offer(result, price)
    ensures var m := ByFinalizer(FreezeQuote(price));
            var c := Apply(m, j, 0).value;
            var j' := StampJob(j, c.job, 0);
            && Advance(Quoting(j, result), j, Priced(price), OWNER, 0) == Swapping(j, m, ThenQuoted(result, 0))
            && Storable(j, m, c) && OnItsWay(j', j.spec) && Equipped(j') && j'.quote == Some(price)
            && AfterSwap(Swapping(j, m, ThenQuoted(result, 0)), j', OWNER, 0) == Reloading(result, price)
  {
  }

  lemma Freezes(ws: iset<World>, w: World, t: nat, j: Job, result: ProviderResult, price: Quote) returns (w': World, j': Job)
    requires Closed(ws, true) && w in ws && At(w, t, j, Quoting(j, result)) && Offer(result, price) && OnItsWay(j, j.spec) && Equipped(j) && j.quote.None?
    ensures w' in ws && At(w', t, j', Reloading(result, price)) && w'.ledger == w.ledger && w'.threads.Keys == w.threads.Keys
    ensures OnItsWay(j', j.spec) && Equipped(j') && j'.quote == Some(price)
  {
    FreezePlan(j, result, price);
    var m := ByFinalizer(FreezeQuote(price));
    w', j' := Goes(ws, w, t, j, Quoting(j, result), Priced(price), m, ThenQuoted(result, 0), Apply(m, j, 0).value, true);
  }

  /** Reread the job and find that nothing was committed. */
  lemma Inspects(ws: iset<World>, w: World, t: nat, j: Job, result: ProviderResult, price: Quote, quiet: bool) returns (w': World)
    requires Closed(ws, quiet) && w in ws && At(w, t, j, Reloading(result, price)) && !j.cancelRequested && j.assets != []
    ensures w' in ws && At(w', t, j, Checking(j, j.assets, price)) && w' == Moved(w, t, Checking(j, j.assets, price))
  {
    InspectPlan(j, result, price);
    var w1 := Moves(ws, w, t, j, Reloading(result, price), Read, quiet);
    w' := Moves(ws, w1, t, j, Inspecting(j, result, price), NotCommitted(Ok([])), quiet);
  }

  lemma InspectPlan(j: Job, result: ProviderResult, price: Quote)
    requires !j.cancelRequested && j.assets != []
    ensures Advance(Reloading(result, price), j, Read, OWNER, 0) == Inspecting(j, result, price)
    ensures Advance(Inspecting(j, result, price), j, NotCommitted(Ok([])), OWNER, 0) == Checking(j, j.assets, price)
  {
  }

  /** The job once its charge is under way, and once it is recorded. */
  ghost predicate Owing(j: Job, spec: JobSpec, money: Money) {
    j.spec == spec && spec.maxAttempts == 1 && spec.user != "" && !j.cancelRequested && j.comp.NotRequired? && j.sched.retryCount == 0 && j.money == money
  }

  function KeyHeld(id: Id): Money { Money(Charging, Some(Billing.ChargeKey(id)), None, 0, 0, 0, map[], None, None) }

  function ChargeHeld(id: Id, price: Quote): Money {
    Money(Charged, Some(Billing.ChargeKey(id)), Some(Billing.ChargeTxn(id)), price.points, 0, price.points, price.breakdown, None, Some(0))
  }

  lemma BeginPlan(j: Job, price: Quote)
    requires OnItsWay(j, j.spec) && Equipped(j) && j.quote == Some(price) && price.points > 0
    ensures var m := ByFinalizer(BeginCharge(Billing.ChargeKey(j.spec.id)));
            var c := Apply(m, j, 0).value;
            var j' := StampJob(j, c.job, 0);
            && Advance(Checking(j, j.assets, price), j, Binding(true, true, CommitOk), OWNER, 0) == Swapping(j, m, ThenPay(j.assets, price))
            && Storable(j, m, c) && Owing(j', j.spec, KeyHeld(j.spec.id)) && Equipped(j') && j'.quote == Some(price) && j'.assets == j.assets
  {
  }

  lemma BeginsCharge(ws: iset<World>, w: World, t: nat, j: Job, price: Quote) returns (w': World, j': Job)
    requires Closed(ws, true) && w in ws && At(w, t, j, Checking(j, j.assets, price)) && price.points > 0
    requires OnItsWay(j, j.spec) && Equipped(j) && j.quote == Some(price)
    ensures w' in ws && At(w', t, j', Paying(j', j'.assets, price)) && w'.ledger == w.ledger && w'.threads.Keys == w.threads.Keys
    ensures Owing(j', j.spec, KeyHeld(j.spec.id)) && Equipped(j') && j'.quote == Some(price)
  {
    BeginPlan(j, price);
    var m := ByFinalizer(BeginCharge(Billing.ChargeKey(j.spec.id)));
    w', j' := Goes(ws, w, t, j, Checking(j, j.assets, price), Binding(true, true, CommitOk), m, ThenPay(j.assets, price), Apply(m, j, 0).value, true);
  }

  function ChargeEntry(j: Job, price: Quote): Billing.Txn { Billing.Entry(ChargeRequest(j, price), Billing.Charge, 0) }

  /** The ledger once the one charge is booked. */
  function AfterCharging(j: Job, price: Quote): Billing.Ledger {
    Billing.Ledger(map[j.spec.user := Billing.Account(0, 2)], map[Billing.ChargeTxn(j.spec.id) := ChargeEntry(j, price)],
                   map[Billing.ChargeKey(j.spec.id) := Billing.ChargeTxn(j.spec.id)])
  }

  lemma Books(j: Job, price: Quote)
    requires j.spec.user != "" && ChargeKeyOf(j) == Billing.ChargeKey(j.spec.id) && price.points > 0
    ensures Billing.Mutate(Funded(j, price.points), ChargeRequest(j, price), Billing.Charge) ==
            (AfterCharging(j, price), Ok(Billing.Receipt(Billing.ChargeTxn(j.spec.id), ChargeEntry(j, price), false)))
  {
    var r := ChargeRequest(j, price);
    assert Billing.Book(Funded(j, price.points), r, Billing.Charge).0 == AfterCharging(j, price);
  }

  function RecordOf(j: Job, price: Quote): Mutation {
    ByFinalizer(RecordCharge(Billing.ChargeTxn(j.spec.id), price.points, price.breakdown, 0))
  }

  lemma Pays(ws: iset<World>, w: World, t: nat, j: Job, price: Quote) returns (w': World)
    requires Closed(ws, true) && w in ws && At(w, t, j, Paying(j, j.assets, price)) && w.ledger == Funded(j, price.points) && price.points > 0
    requires Owing(j, j.spec, KeyHeld(j.spec.id))
    ensures w' in ws && At(w', t, j, Swapping(j, RecordOf(j, price), ThenRecheck(j.assets, price, 0)))
    ensures w'.ledger == AfterCharging(j, price) && w'.threads.Keys == w.threads.Keys
  {
    Books(j, price);
    w' := World(w.store, AfterCharging(j, price), w.threads[t := w.threads[t].(pc := Swapping(j, RecordOf(j, price), ThenRecheck(j.assets, price, 0)))]);
    assert Step(w, CallCharge(t, Up)) == w';
  }

  lemma Records(ws: iset<World>, w: World, t: nat, j: Job, price: Quote) returns (w': World, j': Job)
    requires Closed(ws, true) && w in ws && At(w, t, j, Swapping(j, RecordOf(j, price), ThenRecheck(j.assets, price, 0)))
    requires Owing(j, j.spec, KeyHeld(j.spec.id)) && Equipped(j) && j.quote == Some(price)
    ensures w' in ws && At(w', t, j', Rechecking(j', j'.assets, price)) && w'.ledger == w.ledger && w'.threads.Keys == w.threads.Keys
    ensures Owing(j', j.spec, ChargeHeld(j.spec.id, price)) && Equipped(j') && j'.quote == Some(price)
  {
    w', j' := Swaps(ws, w, t, j, RecordOf(j, price), ThenRecheck(j.assets, price, 0), Apply(RecordOf(j, price), j, 0).value, true);
  }

  /** From the frozen price to the recorded charge. */
  lemma ReachesCharge(ws: iset<World>, w: World, j: Job, result: ProviderResult, price: Quote) returns (w': World, j': Job)
    requires Closed(ws, true) && w in ws && At(w, 1, j, Reloading(result, price)) && w.threads.Keys == {1} && price.points > 0
    requires OnItsWay(j, j.spec) && Equipped(j) && j.quote == Some(price) && w.ledger == Funded(j, price.points)
    ensures w' in ws && At(w', 1, j', Rechecking(j', j'.assets, price)) && w'.threads.Keys == {1} && w'.ledger == AfterCharging(j', price)
    ensures Owing(j', j.spec, ChargeHeld(j.spec.id, price)) && Equipped(j') && j'.quote == Some(price)
  {
    var w1 := Inspects(ws, w, 1, j, result, price, true);
    var w2, j2 := BeginsCharge(ws, w1, 1, j, price);
    w2 := Pays(ws, w2, 1, j2, price);
    w', j' := Records(ws, w2, 1, j2, price);
    SameEntry(j2, j', price);
  }

  lemma SameEntry(a: Job, b: Job, price: Quote)
    requires a.spec == b.spec && a.money.key == b.money.key
    ensures AfterCharging(a, price) == AfterCharging(b, price)
  {
  }

  lemma StartsFresh(ws: iset<World>, c: CreateCommand, r: JobRequest, points: int) returns (w: World, j: Job)
    requires Closed(ws, true) && START in ws && OneJob(c, r) && points >= 0
    ensures w in ws && At(w, 1, j, Loaded(j)) && w.threads.Keys == {1} && w.ledger == Funded(j, points)
    ensures OnItsWay(j, j.spec) && j.status.Queued? && j.task == "" && j.sched.attempt == 0 && j.quote.None?
  {
    w, j := Created(ws, c, r);
    w := Opened(ws, w, j, points);
    w := Started(ws, w, 1, j, true);
  }

  /** A lease-exclusive, lossless run brings a worker to its second binding check with the charge recorded. */
  lemma ChargedOnce(ws: iset<World>, c: CreateCommand, r: JobRequest, result: ProviderResult, price: Quote) returns (w: World, j: Job)
    requires Closed(ws, true) && START in ws && OneJob(c, r) && Offer(result, price)
    ensures w in ws && At(w, 1, j, Rechecking(j, j.assets, price)) && w.threads.Keys == {1} && w.ledger == AfterCharging(j, price)
    ensures Owing(j, j.spec, ChargeHeld(j.spec.id, price)) && Equipped(j) && j.quote == Some(price)
  {
    w, j := StartsFresh(ws, c, r, price.points);
    w, j := ReachesPrice(ws, w, j, result, price);
    w, j := ReachesCharge(ws, w, j, result, price);
  }

  /** From the start of the worker to the frozen price. */
  lemma ReachesPrice(ws: iset<World>, w: World, j: Job, result: ProviderResult, price: Quote) returns (w': World, j': Job)
    requires Closed(ws, true) && w in ws && At(w, 1, j, Loaded(j)) && w.threads.Keys == {1} && Offer(result, price)
    requires OnItsWay(j, j.spec) && j.status.Queued? && j.task == "" && j.sched.attempt == 0 && j.quote.None?
    ensures w' in ws && At(w', 1, j', Reloading(result, price)) && w'.ledger == w.ledger && w'.threads.Keys == {1}
    ensures OnItsWay(j', j.spec) && Equipped(j') && j'.quote == Some(price)
  {
    var w1, j1 := Submits(ws, w, 1, j);
    var w2, j2 := Completes(ws, w1, 1, j1, result, price);
    var w3, j3 := Enters(ws, w2, 1, j2, result);
    w', j' := Freezes(ws, w3, 1, j3, result, price);
  }

  // ---------------------------------------------------------------- quiet runs

  /** Where a lease-exclusive run without lossy answers can lead. */
  ghost predicate QuietlyReached(w: World) {
    exists labels :: ExclusiveRun(labels) && LosslessRun(labels) && Run(labels) == w
  }

  lemma ExclusiveNext(labels: seq<Label>, l: Label)
    requires ExclusiveRun(labels) && LeaseExclusive(Run(labels), l)
    ensures ExclusiveRun(labels + [l])
  {
    forall i | 0 <= i < |labels + [l]| ensures LeaseExclusive(Run((labels + [l])[..i]), (labels + [l])[i]) {
      assert (labels + [l])[..i] == if i < |labels| then labels[..i] else labels;
    }
  }

  lemma LosslessNext(labels: seq<Label>, l: Label)
    requires LosslessRun(labels) && !Lossy(Run(labels), l)
    ensures LosslessRun(labels + [l])
  {
    forall i | 0 <= i < |labels + [l]| ensures !Lossy(Run((labels + [l])[..i]), (labels + [l])[i]) {
      assert (labels + [l])[..i] == if i < |labels| then labels[..i] else labels;
    }
  }

  lemma QuietNext(w: World, l: Label)
    requires QuietlyReached(w) && LeaseExclusive(w, l) && !Lossy(w, l)
    ensures QuietlyReached(Step(w, l))
  {
    var labels :| ExclusiveRun(labels) && LosslessRun(labels) && Run(labels) == w;
    RunNext(labels, w, l, Step(w, l));
    ExclusiveNext(labels, l);
    LosslessNext(labels, l);
  }

  ghost function QuietWorlds(): iset<World> { iset w: World | QuietlyReached(w) }

  lemma QuietIsClosed()
    ensures Closed(QuietWorlds(), true) && START in QuietWorlds()
  {
    forall w, l | QuietlyReached(w) && LeaseExclusive(w, l) && !Lossy(w, l) ensures QuietlyReached(Step(w, l)) { QuietNext(w, l); }
    assert Run([]) == START && ExclusiveRun([]) && LosslessRun([]);
  }

  lemma SomeOffer() returns (c: CreateCommand, r: JobRequest, result: ProviderResult, price: Quote)
    ensures OneJob(c, r) && Offer(result, price)
  {
    r := JobRequest("job", "key", "user", true, 1, 0, 0, false, None);
    c := CreateCommand("operation", "session", "key", "fingerprint", "batch", AllRequired, [r]);
    result, price := ProviderResult("task", ["asset"], Usage(true, 1, map[])), Quote(1, map[]);
  }

  /** Such a run does reach a charged worker. */
  lemma ChargedQuietly() returns (w: World, j: Job, price: Quote)
    ensures QuietlyReached(w) && At(w, 1, j, Rechecking(j, j.assets, price)) && w.threads.Keys == {1} && w.ledger == AfterCharging(j, price)
    ensures price.points > 0 && Owing(j, j.spec, ChargeHeld(j.spec.id, price)) && Equipped(j) && j.quote == Some(price)
  {
    var c, r, result, price' := SomeOffer();
    price := price';
    QuietIsClosed();
    w, j := ChargedOnce(QuietWorlds(), c, r, result, price);
  }

  // ---------------------------------------------------------------- the next worker

  /** The job is charged and its finalization is open to the next worker. */
  ghost predicate Reclaimable(j: Job, price: Quote) {
    Owing(j, j.spec, ChargeHeld(j.spec.id, price)) && Equipped(j) && j.quote == Some(price)
  }

  lemma ClaimPlan(j: Job, price: Quote) returns (m: Mutation, c: Change)
    requires Reclaimable(j, price)
    ensures Advance(Loaded(j), j, NothingRecovered, OWNER, 0) == Routing(j)
    ensures Advance(Routing(j), j, Registered(true), OWNER, 0) == Swapping(j, m, ThenFinalize(ResultOfJob(j))) && Storable(j, m, c)
    ensures c.events == [] && c.job.status == j.status && c.job.phase == j.phase && Reclaimable(StampJob(j, c.job, 0), price)
  {
    m := ByWorker(ClaimFinalization(OWNER, 0));
    c := Apply(m, j, 0).value;
  }

  lemma ReenterPlan(j: Job, price: Quote, result: ProviderResult) returns (m: Mutation, c: Change)
    requires Reclaimable(j, price)
    ensures Advance(Entering(result), j, Read, OWNER, 0) == Swapping(j, m, ThenQuote(result)) && Storable(j, m, c)
    ensures c.events == [] && c.job.status == j.status && Reclaimable(StampJob(j, c.job, 0), price)
  {
    m := ByFinalizer(BeginFinalize(result));
    c := Apply(m, j, 0).value;
  }

  /** A new worker finds nothing to recover and claims the finalization. */
  lemma TakesOver(ws: iset<World>, w: World, t: nat, j: Job, price: Quote, quiet: bool) returns (w': World, j': Job, result: ProviderResult, c: Change)
    requires Closed(ws, quiet) && w in ws && Scene(w, j) && t !in w.threads && Reclaimable(j, price) && (quiet ==> w.threads == map[])
    ensures w' in ws && At(w', t, j', Entering(result)) && w'.ledger == w.ledger && w'.threads == w.threads[t := w'.threads[t]]
    ensures j'.spec == j.spec && Reclaimable(j', price) && c.events == [] && w'.store == Stored(w.store, j, c)
  {
    var m;
    m, c := ClaimPlan(j, price);
    result := ResultOfJob(j);
    var w1 := StartsRouting(ws, w, t, j, quiet);
    w', j' := Goes(ws, w1, t, j, Routing(j), Registered(true), m, ThenFinalize(result), c, quiet);
    LastUpdate(w.threads, t, w1.threads[t], w'.threads[t]);
  }

  lemma LastUpdate(m: map<nat, Thread>, t: nat, a: Thread, b: Thread)
    ensures m[t := a][t := b] == m[t := b]
  {
  }

  lemma StartsRouting(ws: iset<World>, w: World, t: nat, j: Job, quiet: bool) returns (w': World)
    requires Closed(ws, quiet) && w in ws && Scene(w, j) && t !in w.threads && Due(j, 0) && j.sched.attempt > 0 && (quiet ==> w.threads == map[])
    ensures w' in ws && w' == SetThread(w, t, Worker(j.spec.id, j, Routing(j))) && At(w', t, j, Routing(j))
  {
    var w1 := Started(ws, w, t, j, quiet);
    w' := Moves(ws, w1, t, j, Loaded(j), NothingRecovered, quiet);
  }

  /** It goes through the frozen price to the first binding check. */
  lemma Resumes(ws: iset<World>, w: World, t: nat, j: Job, price: Quote, result: ProviderResult, quiet: bool) returns (w': World, j': Job, c: Change)
    requires Closed(ws, quiet) && w in ws && At(w, t, j, Entering(result)) && Reclaimable(j, price)
    ensures w' in ws && At(w', t, j', Checking(j', j'.assets, price)) && w'.ledger == w.ledger && w'.threads == w.threads[t := w'.threads[t]]
    ensures j'.spec == j.spec && Reclaimable(j', price) && c.events == [] && w'.store == Stored(w.store, j, c)
  {
    var m;
    m, c := ReenterPlan(j, price, result);
    var w1;
    w1, j' := Goes(ws, w, t, j, Entering(result), Read, m, ThenQuote(result), c, quiet);
    w' := ReachesCheck(ws, w1, t, j', price, result, quiet);
    LastUpdate(w.threads, t, w1.threads[t], w'.threads[t]);
  }

  lemma ReachesCheck(ws: iset<World>, w: World, t: nat, j: Job, price: Quote, result: ProviderResult, quiet: bool) returns (w': World)
    requires Closed(ws, quiet) && w in ws && At(w, t, j, Quoting(j, result)) && j.quote == Some(price) && !j.cancelRequested && j.assets != []
    ensures w' in ws && At(w', t, j, Checking(j, j.assets, price)) && w' == Moved(w, t, Checking(j, j.assets, price))
  {
    var w1 := Moves(ws, w, t, j, Quoting(j, result), Read, quiet);
    w' := Inspects(ws, w1, t, j, result, price, quiet);
    LastUpdate(w.threads, t, w1.threads[t], w'.threads[t]);
  }

  /** The worker is gone; nobody is left. */
  lemma Crashes(ws: iset<World>, w: World, j: Job) returns (w': World)
    requires Closed(ws, true) && w in ws && Scene(w, j) && w.threads.Keys == {1}
    ensures w' in ws && Scene(w', j) && w'.threads == map[] && w'.ledger == w.ledger
  {
    w' := w.(threads := w.threads - {1});
    assert Step(w, Leave(1)) == w';
  }

  ghost predicate LastAttempt(j: Job) { j.money.txn.Some? && j.spec.maxAttempts == 1 && j.sched.retryCount == 0 }

  lemma RechargePlan(j: Job, price: Quote) returns (m: Mutation, c: Change)
    requires Reclaimable(j, price) && price.points > 0
    ensures Advance(Checking(j, j.assets, price), j, Binding(true, true, CommitOk), OWNER, 0) == Swapping(j, m, ThenPay(j.assets, price)) && Storable(j, m, c)
    ensures LastAttempt(StampJob(j, c.job, 0)) && c.job.assets == j.assets
  {
    m := ByFinalizer(BeginCharge(ChargeKeyOf(j)));
    c := Apply(m, j, 0).value;
  }

  /** A worker of the charged job, on its last attempt, is about to call the ledger again. */
  ghost predicate PaysAgain(w: World, j: Job, price: Quote) {
    At(w, 2, j, Paying(j, j.assets, price)) && LastAttempt(j)
  }

  lemma Recharges(ws: iset<World>, w: World, j: Job, price: Quote) returns (w': World, j': Job)
    requires Closed(ws, true) && w in ws && At(w, 2, j, Checking(j, j.assets, price)) && Reclaimable(j, price) && price.points > 0
    ensures w' in ws && PaysAgain(w', j', price)
  {
    var m, c := RechargePlan(j, price);
    w', j' := Goes(ws, w, 2, j, Checking(j, j.assets, price), Binding(true, true, CommitOk), m, ThenPay(j.assets, price), c, true);
  }

  /** The first worker crashes after the charge is recorded, and the next one comes back to the ledger. */
  lemma ComesBackToPay() returns (w: World, j: Job, price: Quote)
    ensures QuietlyReached(w) && PaysAgain(w, j, price)
  {
    var w0, j0, price' := ChargedQuietly();
    price := price';
    QuietIsClosed();
    var w1 := Crashes(QuietWorlds(), w0, j0);
    var w2, j2, result, c2 := TakesOver(QuietWorlds(), w1, 2, j0, price, true);
    var w3, j3, c3 := Resumes(QuietWorlds(), w2, 2, j2, price, result, true);
    w, j := Recharges(QuietWorlds(), w3, j3, price);
  }

  // ---------------------------------------------------------------- the loss

  /** The ledger cannot be reached: the billing adapter calls any error it does not know a retryable rejection. */
  const OUTAGE := CallCharge(2, DownBefore(Failure(BillingStage, "billing_rejected", true)))

  lemma OutageIsLossy(w: World, j: Job, price: Quote)
    requires PaysAgain(w, j, price)
    ensures Lossy(w, OUTAGE) && ReadIsCurrent(w, 2)
  {
  }

  /**
   The exception of the coverage theorem is real: a worker crashes after its charge is recorded, the next one asks the ledger
   for the same charge, the ledger is out of reach on the last attempt, and the charge is left uncovered.
   */
  lemma LossyRunExists()
    ensures exists labels :: ExclusiveRun(labels) && LosslessRun(labels) && Lossy(Run(labels), OUTAGE) && !CoveredAfter(Run(labels), OUTAGE, 0, OWNER, 0, false)
  {
    var w, j, price := ComesBackToPay();
    var labels :| ExclusiveRun(labels) && LosslessRun(labels) && Run(labels) == w;
    OutageIsLossy(w, j, price);
    UncoveredIffLossy(labels, OUTAGE, 0, OWNER, 0, false);
  }
}
