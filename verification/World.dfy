/** The whole system: store, ledger and any number of threads, each label one atomic step. */
module World {
  import opened Basics
  import opened GenerationModels
  import opened JobMutations
  import opened WorkflowStore
  import opened BatchTransactions
  import opened StoreInvariants
  import opened Workers
  import Billing

  /** A relay holds one outbox row: taken, published, or refused by its consumer. */
  datatype RelayPc = Holding | Tried | Declined

  datatype Thread =
    | Worker(job: Id, start: Job, pc: Pc)
    | Compensator(job: Id, cpc: CompPc)
    | Relay(key: OutboxKey, rpc: RelayPc)

  datatype World = World(store: Store, ledger: Billing.Ledger, threads: map<nat, Thread>)

  /** A billing call may fail on the way there, or on the way back when it has already taken effect. */
  datatype Gateway = Up | DownBefore(failure: Failure) | DownAfter(failure: Failure)

  datatype Label =
    | StoreStep(op: StoreOp)
    | StartWorker(t: nat, job: Id, now: int)
    | WorkerStep(t: nat, answer: Answer, owner: string, until: int)
    | Swap(t: nat, now: int, owner: string, until: int, retryable: bool)
    | CallCharge(t: nat, gateway: Gateway)
    | StartCompensation(t: nat, job: Id, now: int, owner: string, until: int)
    | StartManual(t: nat, job: Id, points: int, refund: Option<Billing.TxnId>)
    | CompSwap(t: nat, now: int)
    | CallRefund(t: nat, gateway: Gateway)
    | Take(t: nat, key: OutboxKey)
    | Publish(t: nat, accepted: bool, now: int)
    | Settle(t: nat, now: int)
    | Leave(t: nat)
    | OpenAccount(user: string, initial: int)
    | Credit(request: Billing.Request)

  // ---------------------------------------------------------------- guards

  /** `Process` skips jobs that are terminal, leased or not yet due. */
  predicate Due(job: Job, now: int) {
    && !Terminal(job)
    && !((job.status.Running? || job.status.Finalizing?) && job.lease.until.Some? && job.lease.until.value > now)
    && !((job.status.WaitingProvider? || job.status.RetryWait?) && job.sched.nextRunAt.Some? && job.sched.nextRunAt.value > now)
  }

  /** Store operations that outsiders may issue: job mutations and acknowledgements belong to the threads. */
  predicate Outside(op: StoreOp) { op.Create? || op.Renew? || op.Barrier? || op.Cancel? }

  ghost function ThroughGateway(l: Billing.Ledger, r: Billing.Request, kind: Billing.Kind, g: Gateway): (Billing.Ledger, Result<Billing.Receipt, Failure>) {
    var (l', result) := Billing.Mutate(l, r, kind);
    match g
    case Up => (l', if result.Ok? then Ok(result.value) else Err(LedgerFailure(result.error)))
    case DownBefore(f) => (l, Err(f))
    case DownAfter(f) => (l', Err(f))
  }

  /** Credits come from elsewhere: they bring their own transaction ids, fresh as the primary key of the table demands. */
  predicate ForeignCredit(l: Billing.Ledger, r: Billing.Request) {
    r.txn.NamedTxn? && (r.key !in l.byKey ==> r.txn !in l.txns)
  }

  // ---------------------------------------------------------------- steps

  function SetThread(w: World, t: nat, th: Thread): World { w.(threads := w.threads[t := th]) }

  predicate WorkerAt(w: World, t: nat) {
    t in w.threads && w.threads[t].Worker? && w.threads[t].job in w.store.jobs
  }

  /** The store operation a pending compare-and-swap performs. */
  function SwapOp(job: Job, m: Mutation, now: int): StoreOp { Mutate(job.spec.id, job.version, m, now) }

  function SwapResult(s: Store, job: Job, m: Mutation, now: int): Result<(Store, Job), Error> {
    MutateJob(s, job.spec.id, job.version, m, now)
  }

  function WorkerSwap(w: World, t: nat, now: int, owner: string, until: int, retryable: bool): World
    requires WorkerAt(w, t) && w.threads[t].pc.Swapping?
  {
    var th := w.threads[t];
    var r := SwapResult(w.store, th.pc.job, th.pc.mutation, now);
    if r.Ok? then World(r.value.0, w.ledger, w.threads[t := th.(pc := AfterSwap(th.pc, r.value.1, owner, until))])
    else
      var commitError := if r.error.Refused? && r.error.cause.CommitFailed? then Some(r.error.cause.failure) else None;
      SetThread(w, t, th.(pc := AfterRefusal(th.pc, r.error.VersionConflict?, commitError, retryable)))
  }

  function CompensatorSwap(w: World, t: nat, now: int): World
    requires t in w.threads && w.threads[t].Compensator? && w.threads[t].cpc.CompSwapping?
  {
    var th := w.threads[t];
    var r := SwapResult(w.store, th.cpc.job, ByCompensation(th.cpc.mutation), now);
    var cpc' := if r.Ok? && th.cpc.mutation.ClaimCompensation? then Refunding(r.value.1) else CompDone;
    World(if r.Ok? then r.value.0 else w.store, w.ledger, w.threads[t := th.(cpc := cpc')])
  }

  ghost function Charge(w: World, t: nat, g: Gateway): World
    requires WorkerAt(w, t) && w.threads[t].pc.Paying?
  {
    var th := w.threads[t];
    var (l', result) := ThroughGateway(w.ledger, ChargeRequest(th.pc.job, th.pc.quote), Billing.Charge, g);
    World(w.store, l', w.threads[t := th.(pc := AfterCharge(th.pc, result))])
  }

  ghost function Refund(w: World, t: nat, g: Gateway): World
    requires t in w.threads && w.threads[t].Compensator? && w.threads[t].cpc.Refunding? && w.threads[t].cpc.job.money.txn.Some?
  {
    var th := w.threads[t];
    var (l', result) := ThroughGateway(w.ledger, RefundRequest(th.cpc.job), Billing.Refund, g);
    World(w.store, l', w.threads[t := th.(cpc := AfterRefund(th.cpc.job, result))])
  }

  /** The relay hands its row to the consumer; a barrier request runs the barrier. */
  function Published(w: World, t: nat, accepted: bool, now: int): World
    requires t in w.threads && w.threads[t].Relay? && w.threads[t].rpc.Holding? && w.threads[t].key in w.store.outbox
  {
    var th := w.threads[t];
    var event := w.store.outbox[th.key].event;
    if !accepted then SetThread(w, t, th.(rpc := Declined))
    else if event.kind.FinalizeRequested? then
      var r := TryFinalize(w.store, event.batch, now);
      if r.Ok? then World(r.value, w.ledger, w.threads[t := th.(rpc := Tried)])
      else SetThread(w, t, th.(rpc := Declined))
    else SetThread(w, t, th.(rpc := Tried))
  }

  function SettledBy(w: World, t: nat, now: int): World
    requires t in w.threads && w.threads[t].Relay? && !w.threads[t].rpc.Holding?
  {
    var th := w.threads[t];
    World(Do(w.store, if th.rpc.Tried? then Acknowledge(th.key) else Reject(th.key, now)), w.ledger, w.threads - {t})
  }

  /** One atomic step; a label that is not enabled changes nothing. */
  ghost function Step(w: World, l: Label): World {
    match l
    case StoreStep(op) => if Outside(op) then w.(store := Do(w.store, op)) else w
    case StartWorker(t, job, now) =>
      if t !in w.threads && job in w.store.jobs && Due(w.store.jobs[job], now)
      then SetThread(w, t, Worker(job, w.store.jobs[job], Loaded(w.store.jobs[job]))) else w
    case WorkerStep(t, a, owner, until) =>
      if WorkerAt(w, t)
      then SetThread(w, t, w.threads[t].(pc := Advance(w.threads[t].pc, w.store.jobs[w.threads[t].job], a, owner, until))) else w
    case Swap(t, now, owner, until, retryable) =>
      if WorkerAt(w, t) && w.threads[t].pc.Swapping? then WorkerSwap(w, t, now, owner, until, retryable) else w
    case CallCharge(t, g) => if WorkerAt(w, t) && w.threads[t].pc.Paying? then Charge(w, t, g) else w
    case StartCompensation(t, job, now, owner, until) =>
      if t !in w.threads && job in w.store.jobs && Compensable(w.store.jobs[job], now)
      then SetThread(w, t, Compensator(job, CompSwapping(w.store.jobs[job], ClaimCompensation(owner, until)))) else w
    case StartManual(t, job, points, refund) =>
      if t !in w.threads && job in w.store.jobs && ManuallyFinalizable(w.store.jobs[job], points, refund)
      then SetThread(w, t, Compensator(job, CompSwapping(w.store.jobs[job], FinalizeManually(points, refund)))) else w
    case CompSwap(t, now) =>
      if t in w.threads && w.threads[t].Compensator? && w.threads[t].cpc.CompSwapping? then CompensatorSwap(w, t, now) else w
    case CallRefund(t, g) =>
      if t in w.threads && w.threads[t].Compensator? && w.threads[t].cpc.Refunding? && w.threads[t].cpc.job.money.txn.Some?
      then Refund(w, t, g) else w
    case Take(t, key) =>
      if t !in w.threads && key in w.store.outbox && w.store.outbox[key].status.RowPending?
      then SetThread(w, t, Relay(key, Holding)) else w
    case Publish(t, accepted, now) =>
      if t in w.threads && w.threads[t].Relay? && w.threads[t].rpc.Holding? && w.threads[t].key in w.store.outbox
      then Published(w, t, accepted, now) else w
    case Settle(t, now) =>
      if t in w.threads && w.threads[t].Relay? && !w.threads[t].rpc.Holding? then SettledBy(w, t, now) else w
    case Leave(t) => w.(threads := w.threads - {t})
    case OpenAccount(user, initial) =>
      var r := Billing.EnsureAccount(w.ledger, user, initial);
      w.(ledger := if r.Ok? then r.value else w.ledger)
    case Credit(request) =>
      if ForeignCredit(w.ledger, request) then w.(ledger := Billing.Mutate(w.ledger, request, Billing.Credit).0) else w
  }

  const START := World(EMPTY, Billing.Ledger(map[], map[], map[]), map[])

  /** A run: any interleaving of any number of threads, with crashes (`Leave`) anywhere. */
  ghost function Run(labels: seq<Label>): World {
    if labels == [] then START else Step(Run(labels[..|labels| - 1]), labels[|labels| - 1])
  }

  /** No other worker holds this job: what the lease is there to ensure. */
  ghost predicate LeaseExclusive(w: World, l: Label) {
    l.StartWorker? ==> forall t :: t in w.threads && w.threads[t].Worker? ==> w.threads[t].job != l.job
  }

  ghost predicate ExclusiveRun(labels: seq<Label>) {
    forall i :: 0 <= i < |labels| ==> LeaseExclusive(Run(labels[..i]), labels[i])
  }

  /** A run continued by one step. */
  lemma RunNext(labels: seq<Label>, w: World, l: Label, w': World)
    requires Run(labels) == w && Step(w, l) == w'
    ensures Run(labels + [l]) == w'
  {
    assert (labels + [l])[..|labels|] == labels;
  }
}
