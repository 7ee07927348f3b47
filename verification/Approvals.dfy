/** Human review as a value: approvals, their decisions, continuations and outbox, with every operation of the store. */
module Approvals {
  import opened Basics

  type Id = string

  datatype Status = Pending | Approved | Rejected | Stale | Expired | Withdrawn

  datatype ReviewMode = InterruptReview | DurableReview

  datatype ExecutionMode = Interrupt | Durable | DurableFallback

  /** The artifact versions the user reviewed. */
  datatype Binding = Binding(
    artifact: Id, artifactVersion: int, storyboard: Id, storyboardVersion: int,
    target: Id, targetRevision: int, promptRevision: int, generationEpoch: int)

  datatype Command = Command(kind: string, key: string, payload: string)

  /** What creation fixes about an approval. */
  datatype Terms = Terms(
    id: Id, key: string, tenant: string, user: string, session: Id, artifactType: string, binding: Binding,
    review: ReviewMode, approve: Command, reject: Command, expiresAt: Option<int>)

  datatype Approval = Approval(
    terms: Terms, mode: ExecutionMode, epoch: int, status: Status, version: int,
    mapping: string, mappingEpoch: int, decidedAt: Option<int>)

  /** What a decider asks for. */
  datatype Ask = Decide(approve: bool, observed: Binding) | Close(outcome: Status)

  datatype Request = Request(approval: Id, expected: int, key: string, ask: Ask, actor: string, reason: string, now: int)

  datatype Decision = Decision(
    approval: Id, version: int, key: string, ask: Ask, effective: Status, actor: string, reason: string,
    command: Option<Command>, at: int)

  datatype Executor = RunnerResume | Deterministic

  datatype ContinuationStatus = Requested | Claimed | Applied

  datatype Continuation = Continuation(
    approval: Id, version: int, executor: Executor, epoch: int, status: ContinuationStatus, leaseUntil: Option<int>)

  datatype EventType = SessionInputRequested | ContinuationRequested | FallbackEnabled

  /** `approval:<id>:decision:<version>:epoch:<epoch>:<type>`, both id and producer key of a row. */
  datatype EventKey = EventKey(approval: Id, version: int, epoch: int, event: EventType)

  datatype EventStatus = EventPending | EventPublished | EventDead

  datatype Event = Event(key: EventKey, status: EventStatus, attempts: int, availableAt: int)

  datatype Error =
    | Invalid | NotFound | AlreadyDecided | VersionConflict | IdempotencyConflict | InvalidTransition
    | ReviewModeImmutable | FallbackFenced | ContinuationBusy | PrimaryReviewPending | MappingMissing

  /** Decisions and continuations are stored per approval and decision version. */
  datatype Slot = Slot(approval: Id, version: int)

  datatype State = State(
    approvals: map<Id, Approval>, byCreateKey: map<string, Id>,
    decisions: map<Slot, Decision>, decisionByKey: map<string, Slot>,
    continuations: map<Slot, Continuation>, outbox: map<EventKey, Event>)

  const EMPTY := State(map[], map[], map[], map[], map[], map[])

  // ---------------------------------------------------------------- pure parts

  /** The two review gates that a session may only have one of at a time. */
  predicate IsPrimaryReview(a: Approval) {
    a.status.Pending? && (a.terms.artifactType == "creation_spec_revision" || a.terms.artifactType == "storyboard_revision")
  }

  /** A target-scoped binding ignores changes elsewhere in the storyboard. */
  predicate Matches(b: Binding, current: Binding) {
    && b.artifact == current.artifact && b.artifactVersion == current.artifactVersion && b.storyboard == current.storyboard
    && (if b.target != "" then
          b.target == current.target && b.targetRevision == current.targetRevision
          && b.promptRevision == current.promptRevision && b.generationEpoch == current.generationEpoch
        else b.storyboardVersion == current.storyboardVersion)
  }

  predicate ValidCommand(c: Command) { c.kind != "" && c.key != "" }

  /** `normalizeApproval`: whatever the caller sent, an approval starts pending, undecided, in epoch one and unmapped. */
  function Normalize(t: Terms, mode: ExecutionMode, now: int): Result<Approval, Error> {
    if t.id == "" || t.key == "" || t.session == "" || t.artifactType == "" then Err(Invalid)
    else if t.binding.artifact == "" || t.binding.artifactVersion <= 0 then Err(Invalid)
    else if mode != (if t.review.InterruptReview? then Interrupt else Durable) then Err(Invalid)
    else if !ValidCommand(t.approve) || !ValidCommand(t.reject) then Err(Invalid)
    else if t.approve.kind == t.reject.kind || t.approve.key == t.reject.key then Err(Invalid)
    else if t.expiresAt.Some? && t.expiresAt.value <= now then Err(Invalid)
    else Ok(Approval(t, mode, 1, Pending, 0, "", 0, None))
  }

  function EffectiveStatus(a: Approval, r: Request): Status {
    match r.ask
    case Close(outcome) => outcome
    case Decide(approve, observed) =>
      if a.terms.expiresAt.Some? && a.terms.expiresAt.value <= r.now then Expired
      else if !Matches(a.terms.binding, observed) then Stale
      else if approve then Approved else Rejected
  }

  predicate ValidRequest(r: Request) {
    && r.approval != "" && r.key != "" && r.expected >= 0
    && (r.ask.Close? ==> r.ask.outcome.Stale? || r.ask.outcome.Expired? || r.ask.outcome.Withdrawn?)
  }

  function SelectedCommand(a: Approval, s: Status): Option<Command> {
    if s.Approved? then Some(a.terms.approve) else if s.Rejected? then Some(a.terms.reject) else None
  }

  function EventFor(e: Executor): EventType { if e.RunnerResume? then SessionInputRequested else ContinuationRequested }

  datatype Prepared = Prepared(approval: Approval, decision: Decision, continuation: Continuation, event: Event)

  /** `prepareDecision` with `newContinuation` and `newDecisionOutbox` */
  function Prepare(a: Approval, r: Request): Result<Prepared, Error> {
    if !a.status.Pending? then Err(AlreadyDecided)
    else if a.version != r.expected then Err(VersionConflict)
    else
      var effective := EffectiveStatus(a, r);
      var n := a.version + 1;
      var decided := a.(status := effective, version := n, decidedAt := Some(r.now));
      var decision := Decision(a.terms.id, n, r.key, r.ask, effective, r.actor, r.reason, SelectedCommand(a, effective), r.now);
      if a.mode.Interrupt? && (a.mapping == "" || a.mappingEpoch <= 0) then Err(MappingMissing)
      else
        var executor := if a.mode.Interrupt? then RunnerResume else Deterministic;
        Ok(Prepared(decided, decision, Continuation(a.terms.id, n, executor, a.epoch, Requested, None),
                    Event(EventKey(a.terms.id, n, a.epoch, EventFor(executor)), EventPending, 0, r.now)))
  }

  /** Same decision as recorded: approval, what was asked and observed, by whom and why. */
  predicate SameRequest(d: Decision, r: Request) {
    d.approval == r.approval && d.ask == r.ask && d.actor == r.actor && d.reason == r.reason
  }

  // ---------------------------------------------------------------- operations

  datatype DecisionResult = DecisionResult(approval: Approval, decision: Decision, continuation: Continuation, event: Event, created: bool)

  datatype FallbackResult = FallbackResult(approval: Approval, continuation: Option<Continuation>, event: Event, switched: bool)

  function AppendEvent(outbox: map<EventKey, Event>, e: Event): map<EventKey, Event> {
    if e.key in outbox then outbox else outbox[e.key := e]
  }

  function Create(s: State, t: Terms, mode: ExecutionMode, now: int): (State, Result<(Approval, bool), Error>) {
    var normalized := Normalize(t, mode, now);
    if normalized.Err? then (s, Err(normalized.error))
    else
      var a := normalized.value;
      if t.id in s.approvals then
        if s.approvals[t.id].terms == t && s.approvals[t.id].mode == mode then (s, Ok((s.approvals[t.id], false))) else (s, Err(IdempotencyConflict))
      else if t.key in s.byCreateKey then (s, Err(IdempotencyConflict))
      else if IsPrimaryReview(a) && exists x :: x in s.approvals && s.approvals[x].terms.session == t.session && IsPrimaryReview(s.approvals[x]) then
        (s, Err(PrimaryReviewPending))
      else (s.(approvals := s.approvals[t.id := a], byCreateKey := s.byCreateKey[t.key := t.id]), Ok((a, true)))
  }

  /** The row that stands for the continuation's current epoch and executor. */
  function CurrentKey(a: Approval, c: Continuation): EventKey { EventKey(a.terms.id, a.version, c.epoch, EventFor(c.executor)) }

  function Replay(s: State, d: Decision): Result<DecisionResult, Error> {
    if d.approval !in s.approvals || Slot(d.approval, d.version) !in s.continuations then Err(NotFound)
    else
      var a, c := s.approvals[d.approval], s.continuations[Slot(d.approval, d.version)];
      if CurrentKey(a, c) !in s.outbox then Err(NotFound)
      else Ok(DecisionResult(a, d, c, s.outbox[CurrentKey(a, c)], false))
  }

  function Settle(s: State, r: Request): (State, Result<DecisionResult, Error>) {
    if !ValidRequest(r) then (s, Err(Invalid))
    else if r.key in s.decisionByKey then
      if s.decisionByKey[r.key] !in s.decisions || !SameRequest(s.decisions[s.decisionByKey[r.key]], r) then (s, Err(IdempotencyConflict))
      else (s, Replay(s, s.decisions[s.decisionByKey[r.key]]))
    else if r.approval !in s.approvals then (s, Err(NotFound))
    else
      var prepared := Prepare(s.approvals[r.approval], r);
      if prepared.Err? then (s, Err(prepared.error))
      else
        var p := prepared.value;
        var slot := Slot(p.approval.terms.id, p.approval.version);
        if slot in s.decisions then (s, Err(IdempotencyConflict))
        else (s.(approvals := s.approvals[p.approval.terms.id := p.approval], decisions := s.decisions[slot := p.decision],
                 decisionByKey := s.decisionByKey[r.key := slot], continuations := s.continuations[slot := p.continuation],
                 outbox := AppendEvent(s.outbox, p.event)),
              Ok(DecisionResult(p.approval, p.decision, p.continuation, p.event, true)))
  }

  function BindMapping(s: State, id: Id, expectedEpoch: int, mapping: string, mappingEpoch: int): (State, Result<Approval, Error>) {
    if id == "" || mapping == "" || expectedEpoch <= 0 || mappingEpoch <= 0 then (s, Err(Invalid))
    else if id !in s.approvals then (s, Err(NotFound))
    else
      var a := s.approvals[id];
      if !a.terms.review.InterruptReview? then (s, Err(InvalidTransition))
      else if !a.status.Pending? || !a.mode.Interrupt? then (s, Err(InvalidTransition))
      else if a.epoch != expectedEpoch then (s, Err(FallbackFenced))
      else if a.mapping != "" then
        if a.mapping == mapping && a.mappingEpoch == mappingEpoch then (s, Ok(a)) else (s, Err(FallbackFenced))
      else
        var a' := a.(mapping := mapping, mappingEpoch := mappingEpoch);
        (s.(approvals := s.approvals[a.terms.id := a']), Ok(a'))
  }

  function FallbackReplay(s: State, a: Approval): Result<FallbackResult, Error> {
    var slot := Slot(a.terms.id, a.version);
    if a.version > 0 && slot !in s.continuations then Err(NotFound)
    else
      var key := EventKey(a.terms.id, a.version, a.epoch, if a.version > 0 then ContinuationRequested else FallbackEnabled);
      if key !in s.outbox then Err(NotFound)
      else Ok(FallbackResult(a, if a.version > 0 then Some(s.continuations[slot]) else None, s.outbox[key], false))
  }

  function SwitchToFallback(s: State, id: Id, expectedMode: ExecutionMode, expectedEpoch: int, expectedVersion: int, now: int): (State, Result<FallbackResult, Error>) {
    if id == "" || expectedEpoch <= 0 || expectedVersion < 0 then (s, Err(Invalid))
    else if id !in s.approvals then (s, Err(NotFound))
    else
      var a := s.approvals[id];
      if !a.terms.review.InterruptReview? then (s, Err(ReviewModeImmutable))
      else if a.mode.DurableFallback? && a.epoch == expectedEpoch + 1 && a.version == expectedVersion then (s, FallbackReplay(s, a))
      else if a.mode != expectedMode || a.epoch != expectedEpoch || a.version != expectedVersion then (s, Err(FallbackFenced))
      else
        var a', slot := a.(mode := DurableFallback, epoch := a.epoch + 1), Slot(a.terms.id, a.version);
        if a.version > 0 then
          if slot !in s.continuations then (s, Err(NotFound))
          else
            var c := s.continuations[slot];
            if c.status.Applied? then (s, Err(FallbackFenced))
            else if c.status.Claimed? && c.leaseUntil.Some? && c.leaseUntil.value > now then (s, Err(ContinuationBusy))
            else
              var c' := c.(executor := Deterministic, epoch := a'.epoch, status := Requested, leaseUntil := None);
              var e := Event(EventKey(a.terms.id, a.version, a'.epoch, ContinuationRequested), EventPending, 0, now);
              (s.(approvals := s.approvals[a.terms.id := a'], continuations := s.continuations[slot := c'], outbox := AppendEvent(s.outbox, e)),
               Ok(FallbackResult(a', Some(c'), e, true)))
        else
          var e := Event(EventKey(a.terms.id, a.version, a'.epoch, FallbackEnabled), EventPending, 0, now);
          (s.(approvals := s.approvals[a.terms.id := a'], outbox := AppendEvent(s.outbox, e)), Ok(FallbackResult(a', None, e, true)))
  }

  function Backoff(attempt: int): int {
    Pow2((if attempt < 1 then 1 else if attempt > 8 then 8 else attempt) - 1)
  }

  function Pow2(n: nat): int { if n == 0 then 1 else 2 * Pow2(n - 1) }

  function MarkPublished(s: State, k: EventKey): (State, Result<(), Error>) {
    if k !in s.outbox then (s, Err(NotFound))
    else if s.outbox[k].status.EventPublished? then (s, Ok(()))
    else if !s.outbox[k].status.EventPending? then (s, Err(InvalidTransition))
    else (s.(outbox := s.outbox[k := s.outbox[k].(status := EventPublished)]), Ok(()))
  }

  function MarkFailed(s: State, k: EventKey, at: int, maxAttempts: int): (State, Result<(), Error>) {
    if k !in s.outbox then (s, Err(NotFound))
    else
      var e := s.outbox[k];
      if !e.status.EventPending? then (s, Ok(()))
      else
        var n := e.attempts + 1;
        (s.(outbox := s.outbox[k := if maxAttempts > 0 && n >= maxAttempts then e.(attempts := n, status := EventDead)
                                    else e.(attempts := n, availableAt := at + Backoff(n))]), Ok(()))
  }

  /** A worker elsewhere claims, applies or releases a continuation; executor and epoch are not its to change. */
  function WorkOn(s: State, slot: Slot, status: ContinuationStatus, leaseUntil: Option<int>): State {
    if slot in s.continuations then s.(continuations := s.continuations[slot := s.continuations[slot].(status := status, leaseUntil := leaseUntil)]) else s
  }
}

/** Lockstep and replay, over every run of the approval store. */
module ApprovalRuns {
  import opened Basics
  import opened Approvals

  datatype Op =
    | CreateOp(terms: Terms, mode: ExecutionMode, now: int)
    | SettleOp(request: Request)
    | BindOp(id: Id, expectedEpoch: int, mapping: string, mappingEpoch: int)
    | FallbackOp(id: Id, expectedMode: ExecutionMode, expectedEpoch: int, expectedVersion: int, now: int)
    | PublishOp(key: EventKey)
    | FailOp(key: EventKey, at: int, maxAttempts: int)
    | WorkOp(slot: Slot, status: ContinuationStatus, leaseUntil: Option<int>)

  function Apply(s: State, op: Op): State {
    match op
    case CreateOp(t, mode, now) => Create(s, t, mode, now).0
    case SettleOp(r) => Settle(s, r).0
    case BindOp(id, e, m, me) => BindMapping(s, id, e, m, me).0
    case FallbackOp(id, mode, e, v, now) => SwitchToFallback(s, id, mode, e, v, now).0
    case PublishOp(k) => MarkPublished(s, k).0
    case FailOp(k, at, max) => MarkFailed(s, k, at, max).0
    case WorkOp(slot, status, lease) => WorkOn(s, slot, status, lease)
  }

  function Run(s: State, ops: seq<Op>): State {
    if ops == [] then s else Apply(Run(s, ops[..|ops| - 1]), ops[|ops| - 1])
  }

  // ---------------------------------------------------------------- lockstep

  ghost predicate InStep(s: State, id: Id)
    requires id in s.approvals
  {
    var a := s.approvals[id];
    && a.terms.id == id && a.epoch >= 1
    && (a.version == 0 <==> a.status.Pending?) && (a.version == 0 || a.version == 1)
    && (a.mapping != "" ==> a.mappingEpoch > 0)
    && (a.mode.Durable? <==> a.terms.review.DurableReview?)
    && (a.version == 0 ==> forall n :: Slot(id, n) !in s.decisions && Slot(id, n) !in s.continuations)
    && (a.version == 1 ==> DecidedInStep(s, a))
    && (a.version == 0 && a.mode.DurableFallback? ==> EventKey(id, 0, a.epoch, FallbackEnabled) in s.outbox)
  }

  ghost predicate DecidedInStep(s: State, a: Approval) {
    var slot := Slot(a.terms.id, 1);
    && slot in s.decisions && slot in s.continuations
    && (var d, c := s.decisions[slot], s.continuations[slot];
        && d.approval == a.terms.id && d.version == 1 && d.effective == a.status
        && d.key in s.decisionByKey && s.decisionByKey[d.key] == slot
        && c.approval == a.terms.id && c.version == 1 && c.epoch == a.epoch
        && (c.executor.RunnerResume? <==> a.mode.Interrupt?)
        && (c.executor.RunnerResume? ==> a.mapping != "" && a.mappingEpoch > 0)
        && CurrentKey(a, c) in s.outbox)
  }

  ghost predicate Lockstep(s: State) {
    && (forall id :: id in s.approvals ==> InStep(s, id))
    && SlotsKnown(s) && KeysKnown(s)
  }

  ghost predicate SlotsKnown(s: State) {
    forall slot :: slot in s.decisions || slot in s.continuations ==> slot.approval in s.approvals && slot.version == 1
  }

  ghost predicate KeysKnown(s: State) {
    forall k :: k in s.decisionByKey ==> s.decisionByKey[k] in s.decisions && s.decisions[s.decisionByKey[k]].key == k
  }

  /** The session whose primary review this approval is, if it is one. */
  ghost function ReviewsOf(s: State, id: Id): Option<Id>
    requires id in s.approvals
  {
    if IsPrimaryReview(s.approvals[id]) then Some(s.approvals[id].terms.session) else None
  }

  /** At most one pending primary review per session. */
  ghost predicate OneReview(s: State) {
    forall x, y :: x in s.approvals && y in s.approvals && ReviewsOf(s, x) == ReviewsOf(s, y) && ReviewsOf(s, x).Some? ==> x == y
  }

  ghost predicate Inv(s: State) { Lockstep(s) && OneReview(s) }

  ghost predicate SameWork(c: Continuation, c': Continuation) {
    c'.approval == c.approval && c'.version == c.version && c'.executor == c.executor && c'.epoch == c.epoch
  }

  /** The records of this approval are as they were, up to the progress of its continuation; rows and keys were only added. */
  ghost predicate Untouched(s: State, s': State, id: Id) {
    && id in s.approvals && id in s'.approvals && s'.approvals[id] == s.approvals[id]
    && (forall n :: Slot(id, n) in s'.decisions <==> Slot(id, n) in s.decisions)
    && (forall n :: Slot(id, n) in s'.continuations <==> Slot(id, n) in s.continuations)
    && (Slot(id, 1) in s.decisions ==> s'.decisions[Slot(id, 1)] == s.decisions[Slot(id, 1)])
    && (Slot(id, 1) in s.continuations ==> SameWork(s.continuations[Slot(id, 1)], s'.continuations[Slot(id, 1)]))
    && (forall k :: k in s.decisionByKey ==> k in s'.decisionByKey && s'.decisionByKey[k] == s.decisionByKey[k])
    && s.outbox.Keys <= s'.outbox.Keys
  }

  lemma StaysInStep(s: State, s': State, id: Id)
    requires Untouched(s, s', id) && InStep(s, id)
    ensures InStep(s', id)
  {
  }

  lemma CreateKeepsStep(s: State, t: Terms, mode: ExecutionMode, now: int)
    requires Lockstep(s)
    ensures Lockstep(Create(s, t, mode, now).0)
  {
    var s' := Create(s, t, mode, now).0;
    if s' != s {
      forall id | id in s'.approvals ensures InStep(s', id) { if id != t.id { StaysInStep(s, s', id); } }
    }
  }

  lemma CreateKeepsReview(s: State, t: Terms, mode: ExecutionMode, now: int)
    requires OneReview(s)
    ensures OneReview(Create(s, t, mode, now).0)
  {
  }

  lemma SettledInStep(s: State, r: Request)
    requires r.approval in s.approvals && InStep(s, r.approval) && Settle(s, r).0 != s
    ensures r.approval in Settle(s, r).0.approvals && InStep(Settle(s, r).0, r.approval)
  {
  }

  /** The records of one approval are written; those of the others are not. */
  ghost predicate Writes(s: State, s': State, id: Id) {
    && (forall x :: x in s.approvals && x != id ==> x in s'.approvals && s'.approvals[x] == s.approvals[x])
    && (forall slot: Slot :: slot.approval != id ==>
          && (slot in s'.decisions <==> slot in s.decisions) && (slot in s.decisions ==> s'.decisions[slot] == s.decisions[slot])
          && (slot in s'.continuations <==> slot in s.continuations) && (slot in s.continuations ==> s'.continuations[slot] == s.continuations[slot]))
    && (forall k :: k in s.decisionByKey ==> k in s'.decisionByKey && s'.decisionByKey[k] == s.decisionByKey[k])
    && s.outbox.Keys <= s'.outbox.Keys
  }

  lemma WritesSpare(s: State, s': State, id: Id, x: Id)
    requires Writes(s, s', id) && x in s.approvals && x != id
    ensures Untouched(s, s', x)
  {
  }

  lemma SettleWrites(s: State, r: Request)
    requires r.approval in s.approvals ==> s.approvals[r.approval].terms.id == r.approval
    ensures Writes(s, Settle(s, r).0, r.approval)
  {
  }

  lemma SettleSpares(s: State, r: Request, x: Id)
    requires x in s.approvals && x != r.approval && (r.approval in s.approvals ==> s.approvals[r.approval].terms.id == r.approval)
    ensures Untouched(s, Settle(s, r).0, x)
  {
    SettleWrites(s, r);
    WritesSpare(s, Settle(s, r).0, r.approval, x);
  }

  lemma SettleKeepsSlots(s: State, r: Request)
    requires SlotsKnown(s) && (r.approval in s.approvals ==> var a := s.approvals[r.approval]; a.terms.id == r.approval && (a.status.Pending? ==> a.version == 0))
    ensures SlotsKnown(Settle(s, r).0)
  {
  }

  lemma SettleKeepsKeys(s: State, r: Request)
    requires KeysKnown(s)
    ensures KeysKnown(Settle(s, r).0)
  {
  }

  lemma SettleKeepsStep(s: State, r: Request)
    requires Lockstep(s)
    ensures Lockstep(Settle(s, r).0)
  {
    var s' := Settle(s, r).0;
    assert r.approval in s.approvals ==> InStep(s, r.approval);
    SettleKeepsSlots(s, r);
    SettleKeepsKeys(s, r);
    if s' != s {
      assert InStep(s, r.approval);
      SettledInStep(s, r);
      forall id | id in s'.approvals ensures InStep(s', id) {
        if id != r.approval { SettleSpares(s, r, id); StaysInStep(s, s', id); }
      }
    }
  }

  /** No new review, only fewer. */
  ghost predicate ReviewsShrink(s: State, s': State) {
    s'.approvals.Keys == s.approvals.Keys && forall x :: x in s.approvals ==> ReviewsOf(s', x) == ReviewsOf(s, x) || ReviewsOf(s', x).None?
  }

  lemma ShrinkKeepsReview(s: State, s': State)
    requires OneReview(s) && ReviewsShrink(s, s')
    ensures OneReview(s')
  {
  }

  lemma SettleKeepsReview(s: State, r: Request)
    requires OneReview(s) && (r.approval in s.approvals ==> s.approvals[r.approval].terms.id == r.approval)
    ensures OneReview(Settle(s, r).0)
  {
    assert ReviewsShrink(s, Settle(s, r).0);
    ShrinkKeepsReview(s, Settle(s, r).0);
  }

  lemma BindKeeps(s: State, id: Id, e: int, m: string, me: int)
    requires Inv(s)
    ensures Inv(BindMapping(s, id, e, m, me).0)
  {
    var s' := BindMapping(s, id, e, m, me).0;
    if s' != s {
      assert InStep(s, id);
      forall x | x in s'.approvals ensures InStep(s', x) { if x != id { StaysInStep(s, s', x); } else { BoundInStep(s, id, e, m, me); } }
      forall x | x in s'.approvals ensures ReviewsOf(s', x) == ReviewsOf(s, x) {}
    }
  }

  lemma BoundInStep(s: State, id: Id, e: int, m: string, me: int)
    requires id in s.approvals && InStep(s, id) && id in BindMapping(s, id, e, m, me).0.approvals
    ensures InStep(BindMapping(s, id, e, m, me).0, id)
  {
  }

  lemma SwitchedInStep(s: State, id: Id, mode: ExecutionMode, e: int, v: int, now: int)
    requires id in s.approvals && InStep(s, id) && SwitchToFallback(s, id, mode, e, v, now).0 != s
    ensures id in SwitchToFallback(s, id, mode, e, v, now).0.approvals && InStep(SwitchToFallback(s, id, mode, e, v, now).0, id)
  {
  }

  lemma FallbackKeepsStep(s: State, id: Id, mode: ExecutionMode, e: int, v: int, now: int)
    requires Lockstep(s)
    ensures Lockstep(SwitchToFallback(s, id, mode, e, v, now).0)
  {
    var s' := SwitchToFallback(s, id, mode, e, v, now).0;
    if s' != s {
      assert InStep(s, id);
      SwitchedInStep(s, id, mode, e, v, now);
      forall x | x in s'.approvals ensures InStep(s', x) { if x != id { SwitchSpares(s, id, mode, e, v, now, x); StaysInStep(s, s', x); } }
    }
  }

  lemma SwitchSpares(s: State, id: Id, mode: ExecutionMode, e: int, v: int, now: int, x: Id)
    requires x in s.approvals && x != id && (id in s.approvals ==> s.approvals[id].terms.id == id)
    ensures Untouched(s, SwitchToFallback(s, id, mode, e, v, now).0, x)
  {
    SwitchWrites(s, id, mode, e, v, now);
    WritesSpare(s, SwitchToFallback(s, id, mode, e, v, now).0, id, x);
  }

  lemma SwitchWrites(s: State, id: Id, mode: ExecutionMode, e: int, v: int, now: int)
    requires id in s.approvals ==> s.approvals[id].terms.id == id
    ensures Writes(s, SwitchToFallback(s, id, mode, e, v, now).0, id)
  {
  }

  lemma FallbackKeepsReview(s: State, id: Id, mode: ExecutionMode, e: int, v: int, now: int)
    requires OneReview(s) && (id in s.approvals ==> s.approvals[id].terms.id == id)
    ensures OneReview(SwitchToFallback(s, id, mode, e, v, now).0)
  {
    assert ReviewsShrink(s, SwitchToFallback(s, id, mode, e, v, now).0);
    ShrinkKeepsReview(s, SwitchToFallback(s, id, mode, e, v, now).0);
  }

  lemma MarksKeep(s: State, s': State)
    requires Inv(s) && s' == s.(outbox := s'.outbox) && s'.outbox.Keys == s.outbox.Keys
    ensures Inv(s')
  {
    forall x | x in s'.approvals ensures InStep(s', x) { StaysInStep(s, s', x); }
  }

  lemma WorkSpares(s: State, slot: Slot, status: ContinuationStatus, lease: Option<int>, x: Id)
    requires x in s.approvals
    ensures Untouched(s, WorkOn(s, slot, status, lease), x)
  {
  }

  lemma WorkKeeps(s: State, slot: Slot, status: ContinuationStatus, lease: Option<int>)
    requires Inv(s)
    ensures Inv(WorkOn(s, slot, status, lease))
  {
    var s' := WorkOn(s, slot, status, lease);
    forall x | x in s'.approvals ensures InStep(s', x) { WorkSpares(s, slot, status, lease, x); StaysInStep(s, s', x); }
    forall x | x in s'.approvals ensures ReviewsOf(s', x) == ReviewsOf(s, x) {}
  }

  lemma CreateKeeps(s: State, t: Terms, mode: ExecutionMode, now: int)
    requires Inv(s)
    ensures Inv(Create(s, t, mode, now).0)
  {
    CreateKeepsStep(s, t, mode, now);
    CreateKeepsReview(s, t, mode, now);
  }

  lemma PublishKeeps(s: State, k: EventKey)
    requires Inv(s)
    ensures Inv(MarkPublished(s, k).0)
  {
    MarksKeep(s, MarkPublished(s, k).0);
  }

  lemma FailKeeps(s: State, k: EventKey, at: int, max: int)
    requires Inv(s)
    ensures Inv(MarkFailed(s, k, at, max).0)
  {
    MarksKeep(s, MarkFailed(s, k, at, max).0);
  }

  lemma SettleKeeps(s: State, r: Request)
    requires Inv(s)
    ensures Inv(Settle(s, r).0)
  {
    assert r.approval in s.approvals ==> InStep(s, r.approval);
    SettleKeepsStep(s, r);
    SettleKeepsReview(s, r);
  }

  lemma FallbackKeeps(s: State, id: Id, mode: ExecutionMode, e: int, v: int, now: int)
    requires Inv(s)
    ensures Inv(SwitchToFallback(s, id, mode, e, v, now).0)
  {
    assert id in s.approvals ==> InStep(s, id);
    FallbackKeepsStep(s, id, mode, e, v, now);
    FallbackKeepsReview(s, id, mode, e, v, now);
  }

  lemma ApplyKeeps(s: State, op: Op)
    requires Inv(s)
    ensures Inv(Apply(s, op))
  {
    match op {
      case CreateOp(t, mode, now) => CreateKeeps(s, t, mode, now);
      case SettleOp(r) => SettleKeeps(s, r);
      case BindOp(id, e, m, me) => BindKeeps(s, id, e, m, me);
      case FallbackOp(id, mode, e, v, now) => FallbackKeeps(s, id, mode, e, v, now);
      case PublishOp(k) => PublishKeeps(s, k);
      case FailOp(k, at, max) => FailKeeps(s, k, at, max);
      case WorkOp(slot, status, lease) => WorkKeeps(s, slot, status, lease);
    }
  }

  /** From the empty store, every sequence of operations keeps approvals, decisions, continuations and rows in lockstep. */
  lemma {:induction false} RunKeeps(ops: seq<Op>)
    ensures Inv(Run(EMPTY, ops))
    decreases |ops|
  {
    if ops != [] {
      RunKeeps(ops[..|ops| - 1]);
      ApplyKeeps(Run(EMPTY, ops[..|ops| - 1]), ops[|ops| - 1]);
    }
  }

  /** The lockstep of one approval, said outright. */
  lemma DecidedExactlyOnce(ops: seq<Op>, id: Id)
    requires id in Run(EMPTY, ops).approvals
    ensures var s := Run(EMPTY, ops); var a, slot := s.approvals[id], Slot(id, 1);
            && (a.status.Pending? <==> a.version == 0) && (!a.status.Pending? <==> a.version == 1)
            && (a.version == 1 <==> slot in s.decisions) && (a.version == 1 <==> slot in s.continuations)
            && (a.version == 1 ==>
                  && s.decisions[slot].effective == a.status && s.continuations[slot].epoch == a.epoch
                  && (s.continuations[slot].executor.RunnerResume? ==> a.mode.Interrupt? && a.mapping != "" && a.mappingEpoch > 0))
  {
    RunKeeps(ops);
    assert InStep(Run(EMPTY, ops), id);
  }

  lemma OnePendingReview(ops: seq<Op>, x: Id, y: Id)
    requires var s := Run(EMPTY, ops);
             && x in s.approvals && y in s.approvals && IsPrimaryReview(s.approvals[x]) && IsPrimaryReview(s.approvals[y])
             && s.approvals[x].terms.session == s.approvals[y].terms.session
    ensures x == y
  {
    RunKeeps(ops);
    var s := Run(EMPTY, ops);
    assert ReviewsOf(s, x) == ReviewsOf(s, y);
  }

  // ---------------------------------------------------------------- replay

  /** Decisions are never rewritten or forgotten, and decided approvals keep their status. */
  ghost predicate Remembers(s: State, s': State) {
    && (forall k :: k in s.decisionByKey ==> k in s'.decisionByKey && s'.decisionByKey[k] == s.decisionByKey[k])
    && (forall slot :: slot in s.decisions ==> slot in s'.decisions && s'.decisions[slot] == s.decisions[slot])
  }

  lemma ApplyRemembers(s: State, op: Op)
    ensures Remembers(s, Apply(s, op))
  {
  }

  lemma {:induction false} RunRemembers(s: State, ops: seq<Op>)
    ensures Remembers(s, Run(s, ops))
    decreases |ops|
  {
    if ops != [] {
      RunRemembers(s, ops[..|ops| - 1]);
      ApplyRemembers(Run(s, ops[..|ops| - 1]), ops[|ops| - 1]);
    }
  }

  lemma {:induction false} RunsCompose(s: State, a: seq<Op>, b: seq<Op>)
    ensures Run(s, a + b) == Run(Run(s, a), b)
    decreases |b|
  {
    if b == [] {
      assert a + b == a;
    } else {
      RunsCompose(s, a, b[..|b| - 1]);
      assert (a + b)[..|a + b| - 1] == a + b[..|b| - 1];
    }
  }

  /** In lockstep, a recorded request is answered from the records, with the row of the current epoch and executor. */
  lemma ReplayFinds(s: State, r: Request, d: Decision)
    requires Inv(s) && ValidRequest(r) && r.key in s.decisionByKey && s.decisions[s.decisionByKey[r.key]] == d && SameRequest(d, r)
    ensures Settle(s, r).0 == s && Settle(s, r).1.Ok?
    ensures var v := Settle(s, r).1.value;
            && v.decision == d && !v.created
            && r.approval in s.approvals && v.approval == s.approvals[r.approval]
            && Slot(r.approval, 1) in s.continuations && v.continuation == s.continuations[Slot(r.approval, 1)]
            && v.continuation.epoch == v.approval.epoch
            && EventKey(r.approval, 1, v.continuation.epoch, EventFor(v.continuation.executor)) in s.outbox
            && v.event == s.outbox[EventKey(r.approval, 1, v.continuation.epoch, EventFor(v.continuation.executor))]
  {
    assert InStep(s, s.decisionByKey[r.key].approval);
  }

  /**
   After any later run, with fallbacks, acknowledgements and continuation work in between, repeating a recorded
   decision request answers that same decision, changes nothing, and finds the row for the continuation's current epoch.
   */
  lemma DecisionIsReplayed(before: seq<Op>, r: Request, after: seq<Op>)
    requires Settle(Run(EMPTY, before), r).1.Ok?
    ensures var d := Settle(Run(EMPTY, before), r).1.value.decision;
            var s := Run(EMPTY, before + [SettleOp(r)] + after);
            && Settle(s, r).0 == s && Settle(s, r).1.Ok? && !Settle(s, r).1.value.created
            && Settle(s, r).1.value.decision == d
            && Settle(s, r).1.value.event.key == EventKey(r.approval, 1, s.approvals[r.approval].epoch, EventFor(Settle(s, r).1.value.continuation.executor))
  {
    var s0, ops := Run(EMPTY, before), before + [SettleOp(r)] + after;
    var s1 := Settle(s0, r).0;
    var d := Settle(s0, r).1.value.decision;
    RunKeeps(before);
    RecordedAfterSettle(s0, r);
    assert Run(EMPTY, before + [SettleOp(r)]) == s1 by { assert (before + [SettleOp(r)])[..|before|] == before; }
    RunsCompose(EMPTY, before + [SettleOp(r)], after);
    RunRemembers(s1, after);
    RunKeeps(ops);
    ReplayFinds(Run(EMPTY, ops), r, d);
    KeysOfRows(ops);
  }

  lemma RecordedAfterSettle(s: State, r: Request)
    requires Inv(s) && Settle(s, r).1.Ok?
    ensures var d, s' := Settle(s, r).1.value.decision, Settle(s, r).0;
            ValidRequest(r) && r.key in s'.decisionByKey && s'.decisionByKey[r.key] in s'.decisions && s'.decisions[s'.decisionByKey[r.key]] == d && SameRequest(d, r)
  {
  }

  ghost predicate KeyedRows(s: State) { forall k :: k in s.outbox ==> s.outbox[k].key == k }

  lemma {:induction false} KeysOfRows(ops: seq<Op>)
    ensures KeyedRows(Run(EMPTY, ops))
    decreases |ops|
  {
    if ops != [] { KeysOfRows(ops[..|ops| - 1]); }
  }

  /** Terms never change, epoch and version only grow, and a fallback is for good. */
  ghost predicate Ages(a: Approval, b: Approval) {
    b.terms == a.terms && b.epoch >= a.epoch && b.version >= a.version && (a.mode.DurableFallback? ==> b.mode.DurableFallback?)
  }

  lemma SettleAges(s: State, r: Request, id: Id)
    requires id in s.approvals && (r.approval in s.approvals ==> s.approvals[r.approval].terms.id == r.approval)
    ensures id in Settle(s, r).0.approvals && Ages(s.approvals[id], Settle(s, r).0.approvals[id])
  {
  }

  lemma SwitchAges(s: State, x: Id, mode: ExecutionMode, e: int, v: int, now: int, id: Id)
    requires id in s.approvals && (x in s.approvals ==> s.approvals[x].terms.id == x)
    ensures id in SwitchToFallback(s, x, mode, e, v, now).0.approvals
    ensures Ages(s.approvals[id], SwitchToFallback(s, x, mode, e, v, now).0.approvals[id])
  {
  }

  lemma BindAges(s: State, x: Id, e: int, m: string, me: int, id: Id)
    requires id in s.approvals && (x in s.approvals ==> s.approvals[x].terms.id == x)
    ensures id in BindMapping(s, x, e, m, me).0.approvals && Ages(s.approvals[id], BindMapping(s, x, e, m, me).0.approvals[id])
  {
  }

  ghost predicate IdsAgree(s: State) { forall x :: x in s.approvals ==> s.approvals[x].terms.id == x }

  lemma ApplyAges(s: State, op: Op, id: Id)
    requires IdsAgree(s) && id in s.approvals
    ensures id in Apply(s, op).approvals && Ages(s.approvals[id], Apply(s, op).approvals[id])
  {
    match op {
      case SettleOp(r) => SettleAges(s, r, id);
      case FallbackOp(x, mode, e, v, now) => SwitchAges(s, x, mode, e, v, now, id);
      case BindOp(x, e, m, me) => BindAges(s, x, e, m, me, id);
      case _ =>
    }
  }

  lemma {:induction false} RunAges(before: seq<Op>, after: seq<Op>, id: Id)
    requires id in Run(EMPTY, before).approvals
    ensures id in Run(EMPTY, before + after).approvals && Ages(Run(EMPTY, before).approvals[id], Run(EMPTY, before + after).approvals[id])
    decreases |after|
  {
    if after == [] {
      assert before + after == before;
    } else {
      var shorter := after[..|after| - 1];
      assert (before + after)[..|before + after| - 1] == before + shorter;
      RunAges(before, shorter, id);
      RunKeeps(before + shorter);
      assert IdsAgree(Run(EMPTY, before + shorter)) by {
        forall x | x in Run(EMPTY, before + shorter).approvals ensures Run(EMPTY, before + shorter).approvals[x].terms.id == x {
          assert InStep(Run(EMPTY, before + shorter), x);
        }
      }
      ApplyAges(Run(EMPTY, before + shorter), after[|after| - 1], id);
    }
  }

  /** What a switch that is recognised answers: nothing new, and the row of its own epoch. */
  ghost predicate SwitchAnswered(s: State, id: Id, mode: ExecutionMode, e: int, v: int, later: int) {
    var result := SwitchToFallback(s, id, mode, e, v, later).1;
    && result.Ok? && !result.value.switched && id in s.approvals && result.value.approval == s.approvals[id]
    && result.value.event.key == EventKey(id, v, e + 1, if v > 0 then ContinuationRequested else FallbackEnabled)
    && result.value.event.key in s.outbox && s.outbox[result.value.event.key] == result.value.event
  }

  /**
   After any later run a repeated switch changes nothing. It is answered with the row of its own epoch exactly as long as
   no decision and no further switch came in between, which epoch and version tell; afterwards it is fenced.
   */
  lemma SwitchIsReplayed(before: seq<Op>, id: Id, mode: ExecutionMode, e: int, v: int, now: int, after: seq<Op>, later: int)
    requires SwitchToFallback(Run(EMPTY, before), id, mode, e, v, now).1.Ok?
    ensures var s := Run(EMPTY, before + [FallbackOp(id, mode, e, v, now)] + after);
            && SwitchToFallback(s, id, mode, e, v, later).0 == s && id in s.approvals
            && (if s.approvals[id].epoch == e + 1 && s.approvals[id].version == v then SwitchAnswered(s, id, mode, e, v, later)
                else SwitchToFallback(s, id, mode, e, v, later).1 == Err(FallbackFenced))
  {
    var s0, first := Run(EMPTY, before), before + [FallbackOp(id, mode, e, v, now)];
    RunKeeps(before);
    assert id in s0.approvals && InStep(s0, id);
    SwitchedOnce(s0, id, mode, e, v, now);
    assert Run(EMPTY, first) == SwitchToFallback(s0, id, mode, e, v, now).0 by { assert first[..|before|] == before; }
    RunAges(first, after, id);
    RunKeeps(first + after);
    KeysOfRows(first + after);
    var s := Run(EMPTY, first + after);
    assert InStep(s, id);
    SwitchRecognised(s, id, mode, e, v, later);
  }

  lemma SwitchedOnce(s: State, id: Id, mode: ExecutionMode, e: int, v: int, now: int)
    requires id in s.approvals && s.approvals[id].terms.id == id && SwitchToFallback(s, id, mode, e, v, now).1.Ok?
    ensures var s' := SwitchToFallback(s, id, mode, e, v, now).0;
            && id in s'.approvals && s'.approvals[id].mode.DurableFallback? && s'.approvals[id].epoch == e + 1 && s'.approvals[id].version == v
            && s'.approvals[id].terms.review.InterruptReview? && id != "" && e > 0 && v >= 0
  {
  }

  lemma SwitchRecognised(s: State, id: Id, mode: ExecutionMode, e: int, v: int, later: int)
    requires id in s.approvals && InStep(s, id) && KeyedRows(s) && id != "" && e > 0 && v >= 0
    requires var a := s.approvals[id]; a.mode.DurableFallback? && a.epoch >= e + 1 && a.terms.review.InterruptReview?
    ensures SwitchToFallback(s, id, mode, e, v, later).0 == s
    ensures if s.approvals[id].epoch == e + 1 && s.approvals[id].version == v then SwitchAnswered(s, id, mode, e, v, later)
            else SwitchToFallback(s, id, mode, e, v, later).1 == Err(FallbackFenced)
  {
  }
}
