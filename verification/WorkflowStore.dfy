/**
 The transactional store as a value: each public operation is a function from store to store,
 so that a failed operation is visibly one that returns no new store.
 */
module WorkflowStore {
  import opened Basics
  import opened GenerationModels
  import opened JobMutations
  import Billing

  datatype Store = Store(
    operations: map<Id, Operation>, operationByKey: map<string, Id>,
    batches: map<Id, Batch>, jobs: map<Id, Job>, jobIds: map<Id, seq<Id>>, outbox: Outbox)

  const EMPTY := Store(map[], map[], map[], map[], map[], map[])

  datatype Error =
    | NotFound | VersionConflict | InvalidTransition | Duplicate | IdempotencyConflict | InvalidCommand
    | Refused(cause: MutationError)

  // ---------------------------------------------------------------- outbox

  /** A row is inserted once per producer key; a repeated key is dropped. */
  function Append(outbox: Outbox, e: Event, now: int): Outbox {
    if e.key in outbox then outbox
    else outbox[e.key := Row(e, RowPending, 0, if e.availableAt.Some? then e.availableAt.value else now)]
  }

  function AppendAll(outbox: Outbox, events: seq<Event>, now: int): (r: Outbox)
    ensures outbox.Keys <= r.Keys
    ensures forall k :: k in outbox ==> r[k] == outbox[k]
    ensures forall i :: 0 <= i < |events| ==> events[i].key in r
    ensures forall k :: k in r && k !in outbox ==>
      r[k].status == RowPending && r[k].attempts == 0 && r[k].event in events && r[k].event.key == k
    decreases |events|
  {
    if events == [] then outbox else
      var rest := Append(outbox, events[0], now);
      var r := AppendAll(rest, events[1..], now);
      assert forall i :: 0 < i < |events| ==> events[i] == events[1..][i - 1];
      r
  }

  /** `ensureJobLifecycleEvent` */
  function EnsureLifecycle(events: seq<Event>, before: Job, after: Job, implicitJob: bool): (r: seq<Event>)
    ensures r == events || r == events + [JobEventFor(JobLifecycle(after.spec.id, after.version + 1), after)]
  {
    if before.status == after.status && before.phase == after.phase then events
    else if !PublicStatus(after.status) then events
    else if exists e :: e in events && SignalsJob(e) && (implicitJob || e.job == after.spec.id) then events
    else events + [JobEventFor(JobLifecycle(after.spec.id, after.version + 1), after)]
  }

  // ---------------------------------------------------------------- jobs

  /** What the store itself writes on a successful job mutation. */
  function StampJob(before: Job, after: Job, now: int): Job {
    after.(version := after.version + 1, updatedAt := now,
           startedAt := if before.startedAt.None? && after.status.Running? then Some(now) else after.startedAt,
           terminalAt := if Terminal(after) && after.terminalAt.None? then Some(now) else after.terminalAt)
  }

  /** The compare-and-swap: version check, mutation, transition check, stamp, outbox, all or nothing. */
  function MutateJob(s: Store, id: Id, expected: int, m: Mutation, now: int): Result<(Store, Job), Error> {
    if id !in s.jobs then Err(NotFound)
    else
      var job := s.jobs[id];
      if expected > 0 && job.version != expected then Err(VersionConflict)
      else
        var mutated := Apply(m, job, now);
        if mutated.Err? then Err(Refused(mutated.error))
        else
          var Change(after, events) := mutated.value;
          if job.status != after.status && !JobTransition(job.status, after.status) then Err(InvalidTransition)
          else
            var job' := StampJob(job, after, now);
            Ok((s.(jobs := s.jobs[id := job'],
                   outbox := AppendAll(s.outbox, EnsureLifecycle(events, job, after, true), now)), job'))
  }

  /** Lease renewal does not touch the version. */
  function RenewJobLease(s: Store, id: Id, owner: string, until: int, now: int): Result<Store, Error> {
    if id !in s.jobs then Err(NotFound)
    else
      var job := s.jobs[id];
      if job.lease.owner != owner || !(job.status.Running? || job.status.Finalizing?) then Err(VersionConflict)
      else Ok(s.(jobs := s.jobs[id := job.(lease := job.lease.(until := Some(until)), updatedAt := now)]))
  }

  /** The loop that writes a list of jobs back. */
  function PutJobs(m: map<Id, Job>, jobs: seq<Job>): map<Id, Job> {
    if jobs == [] then m
    else PutJobs(m, jobs[..|jobs| - 1])[jobs[|jobs| - 1].spec.id := jobs[|jobs| - 1]]
  }

  lemma {:induction false} PutJobsOther(m: map<Id, Job>, jobs: seq<Job>, id: Id)
    requires forall i :: 0 <= i < |jobs| ==> jobs[i].spec.id != id
    ensures id in PutJobs(m, jobs) <==> id in m
    ensures id in m ==> PutJobs(m, jobs)[id] == m[id]
    decreases |jobs|
  {
    if jobs != [] { PutJobsOther(m, jobs[..|jobs| - 1], id); }
  }

  ghost predicate DistinctIds(jobs: seq<Job>) {
    forall i, k :: 0 <= i < k < |jobs| ==> jobs[i].spec.id != jobs[k].spec.id
  }

  lemma {:induction false} PutJobsFinds(m: map<Id, Job>, jobs: seq<Job>, i: nat)
    requires DistinctIds(jobs) && i < |jobs|
    ensures jobs[i].spec.id in PutJobs(m, jobs) && PutJobs(m, jobs)[jobs[i].spec.id] == jobs[i]
    decreases |jobs|
  {
    if i < |jobs| - 1 { PutJobsFinds(m, jobs[..|jobs| - 1], i); }
  }

  // ---------------------------------------------------------------- outbox acknowledgement

  function MarkPublished(s: Store, key: OutboxKey): Result<Store, Error> {
    if key !in s.outbox then Err(NotFound)
    else Ok(s.(outbox := s.outbox[key := s.outbox[key].(status := RowPublished)]))
  }

  function MarkFailed(s: Store, key: OutboxKey, at: int, maxAttempts: int): Result<Store, Error> {
    if key !in s.outbox then Err(NotFound)
    else
      var row := s.outbox[key];
      if !row.status.RowPending? then Ok(s)
      else
        var n := row.attempts + 1;
        var row' := if maxAttempts > 0 && n >= maxAttempts then row.(attempts := n, status := RowDead)
                    else row.(attempts := n, availableAt := at + RetryBackoff(n));
        Ok(s.(outbox := s.outbox[key := row']))
  }

  // ---------------------------------------------------------------- creation

  datatype JobRequest = JobRequest(
    id: Id, key: string, user: string, required: bool, maxAttempts: int, maxRetries: int, maxPolls: int,
    bindActive: bool, billingKey: Option<Billing.Key>)

  datatype CreateCommand = CreateCommand(
    operation: Id, session: Id, key: string, fingerprint: string, batch: Id, policy: CompletionPolicy, jobs: seq<JobRequest>)

  function Max(a: int, b: int): int { if a > b then a else b }

  function NewJob(c: CreateCommand, allRequired: bool, r: JobRequest, now: int): Job {
    Job(JobSpec(r.id, c.batch, c.operation, r.user, allRequired || r.required,
                if r.maxAttempts <= 0 then Max(1, r.maxRetries + 1) else r.maxAttempts,
                if r.maxPolls <= 0 then DEFAULT_MAX_POLLS else r.maxPolls, r.bindActive),
        Queued, ProviderSubmit, 1, Schedule(0, 0, 0, None), NO_LEASE, "", [], NoDisposition, None, None,
        Money(NotStarted, r.billingKey, None, 0, 0, 0, map[], None, None),
        NotRequired, false, NO_FAULT, now, None, None)
  }

  /** When the policy wants all required jobs and none is marked, all are. */
  predicate DefaultAllRequired(c: CreateCommand) {
    c.policy.AllRequired? && forall r :: r in c.jobs ==> !r.required
  }

  function NewJobs(c: CreateCommand, now: int): (js: seq<Job>)
    ensures |js| == |c.jobs|
    ensures forall i :: 0 <= i < |js| ==> js[i] == NewJob(c, DefaultAllRequired(c), c.jobs[i], now)
  {
    seq(|c.jobs|, i requires 0 <= i < |c.jobs| => NewJob(c, DefaultAllRequired(c), c.jobs[i], now))
  }

  function CountRequired(jobs: seq<Job>): int {
    if jobs == [] then 0 else CountRequired(jobs[..|jobs| - 1]) + (if jobs[|jobs| - 1].spec.required then 1 else 0)
  }

  function CreationEvents(c: CreateCommand, jobs: seq<Job>): (es: seq<Event>)
    ensures |es| == |jobs| + 1
    ensures es[0].key == OperationAccepted(c.operation)
    ensures forall i :: 0 < i < |es| ==> es[i] == DispatchFor(JobDispatch(jobs[i - 1].spec.id), jobs[i - 1])
  {
    [Event(OperationAccepted(c.operation), OperationEvent, SessionSignals, "", c.batch, None, None)]
    + seq(|jobs|, i requires 0 <= i < |jobs| => DispatchFor(JobDispatch(jobs[i].spec.id), jobs[i]))
  }

  predicate DistinctJobs(c: CreateCommand) {
    forall i, k :: 0 <= i < k < |c.jobs| ==> c.jobs[i].id != c.jobs[k].id
  }

  predicate CreateAllowed(s: Store, c: CreateCommand) {
    && c.operation !in s.operations && c.batch !in s.batches && c.jobs != []
    && DistinctJobs(c) && forall r :: r in c.jobs ==> r.id !in s.jobs
  }

  function IdsOf(jobs: seq<Job>): (ids: seq<Id>)
    ensures |ids| == |jobs| && forall i :: 0 <= i < |jobs| ==> ids[i] == jobs[i].spec.id
  {
    seq(|jobs|, i requires 0 <= i < |jobs| => jobs[i].spec.id)
  }

  /** The store with the new operation, batch and jobs. */
  function WithRecords(s: Store, c: CreateCommand, jobs: seq<Job>): Store {
    var required := CountRequired(jobs);
    Store(
      s.operations[c.operation := Operation(c.operation, c.batch, c.key, c.fingerprint, OpWaiting, 1, None, None)],
      s.operationByKey[c.key := c.operation],
      s.batches[c.batch := Batch(c.batch, c.operation, c.policy, BatchWaiting, false,
                                 Tally(required, |jobs| - required, 0, 0, 0), NO_COST, 1, None)],
      PutJobs(s.jobs, jobs),
      s.jobIds[c.batch := IdsOf(jobs)],
      s.outbox)
  }

  /** The same with the jobs' dispatch rows. */
  function WithWorkflow(s: Store, c: CreateCommand, jobs: seq<Job>, now: int): Store {
    WithRecords(s, c, jobs).(outbox := AppendAll(s.outbox, CreationEvents(c, jobs), now))
  }

  /** The first job request that lacks its id or key, or has an id already taken in the store or by an earlier request. */
  function JobsProblem(s: Store, jobs: seq<JobRequest>): Option<Error> {
    if jobs == [] then None
    else
      var n := |jobs| - 1;
      var earlier := JobsProblem(s, jobs[..n]);
      if earlier.Some? then earlier
      else if jobs[n].id == "" || jobs[n].key == "" then Some(InvalidCommand)
      else if jobs[n].id in s.jobs || exists k :: 0 <= k < n && jobs[k].id == jobs[n].id then Some(Duplicate)
      else None
  }

  lemma {:induction false} NoProblem(s: Store, jobs: seq<JobRequest>)
    requires JobsProblem(s, jobs).None?
    ensures forall i :: 0 <= i < |jobs| ==> jobs[i].id != "" && jobs[i].id !in s.jobs
    ensures forall i, k :: 0 <= i < k < |jobs| ==> jobs[i].id != jobs[k].id
    decreases |jobs|
  {
    if jobs != [] {
      var n := |jobs| - 1;
      NoProblem(s, jobs[..n]);
      assert forall i :: 0 <= i < n ==> jobs[..n][i] == jobs[i];
    }
  }

  /** Operation, batch, jobs and their dispatch rows in one transaction; a known key is a replay. */
  function CreateWorkflow(s: Store, c: CreateCommand, now: int): Result<(Store, bool), Error> {
    if c.operation == "" || c.session == "" || c.key == "" || c.batch == "" then Err(InvalidCommand)
    else if c.key in s.operationByKey then
      var existing := s.operationByKey[c.key];
      if existing in s.operations && s.operations[existing].fingerprint == c.fingerprint then Ok((s, false))
      else Err(IdempotencyConflict)
    else if c.operation in s.operations || c.batch in s.batches then Err(Duplicate)
    else if c.jobs == [] then Err(InvalidCommand)
    else if JobsProblem(s, c.jobs).Some? then Err(JobsProblem(s, c.jobs).value)
    else Ok((WithWorkflow(s, c, NewJobs(c, now), now), true))
  }

  /** A creation replays or adds the workflow. */
  lemma CreateOutcomes(s: Store, c: CreateCommand, now: int)
    ensures var r := CreateWorkflow(s, c, now); r.Ok? ==> r.value.0 == s || r.value.0 == WithWorkflow(s, c, NewJobs(c, now), now)
  {
  }

  /** What a creation that goes through has established. */
  lemma CreatedWasAllowed(s: Store, c: CreateCommand, now: int)
    requires CreateWorkflow(s, c, now).Ok? && CreateWorkflow(s, c, now).value.1
    ensures CreateAllowed(s, c) && CreateWorkflow(s, c, now).value.0 == WithWorkflow(s, c, NewJobs(c, now), now)
  {
    NoProblem(s, c.jobs);
  }
}
