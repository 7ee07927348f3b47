/** The in-memory approval store: the same operations on maps that are updated in place. */
module ApprovalMemory {
  import opened Basics
  import opened Approvals

  class MemoryStore {
    var approvals: map<Id, Approval>
    var approvalByCreateKey: map<string, Id>
    var decisions: map<Slot, Decision>
    var decisionByKey: map<string, Slot>
    var continuations: map<Slot, Continuation>
    var outbox: map<EventKey, Event>

    ghost function View(): State
      reads this
    {
      State(approvals, approvalByCreateKey, decisions, decisionByKey, continuations, outbox)
    }

    constructor ()
      ensures View() == EMPTY
    {
      approvals, approvalByCreateKey, decisions, decisionByKey, continuations, outbox := map[], map[], map[], map[], map[], map[];
    }

    /** The scan of all approvals, in whatever order the map yields them. */
    method HasPrimaryReview(session: Id) returns (found: bool)
      ensures found <==> exists x :: x in approvals && approvals[x].terms.session == session && IsPrimaryReview(approvals[x])
    {
      var rest := approvals.Keys;
      while rest != {}
        invariant rest <= approvals.Keys
        invariant forall x :: x in approvals && x !in rest ==> !(approvals[x].terms.session == session && IsPrimaryReview(approvals[x]))
        decreases |rest|
      {
        var x :| x in rest;
        if approvals[x].terms.session == session && IsPrimaryReview(approvals[x]) { return true; }
        rest := rest - {x};
      }
      return false;
    }

    method Create(t: Terms, mode: ExecutionMode, now: int) returns (result: Result<(Approval, bool), Error>)
      modifies this`approvals, this`approvalByCreateKey
      ensures (View(), result) == Approvals.Create(old(View()), t, mode, now)
    {
      var normalized := Normalize(t, mode, now);
      if normalized.Err? { return Err(normalized.error); }
      if t.id in approvals {
        var existing := approvals[t.id];
        if existing.terms != t || existing.mode != mode { return Err(IdempotencyConflict); }
        return Ok((existing, false));
      }
      if t.key in approvalByCreateKey { return Err(IdempotencyConflict); }
      if IsPrimaryReview(normalized.value) {
        var pending := HasPrimaryReview(t.session);
        if pending { return Err(PrimaryReviewPending); }
      }
      approvals := approvals[t.id := normalized.value];
      approvalByCreateKey := approvalByCreateKey[t.key := t.id];
      return Ok((normalized.value, true));
    }

    /** `appendOutboxLocked`; id and key of a row are the same, so an existing key is the same event. */
    method Append(e: Event)
      modifies this`outbox
      ensures outbox == AppendEvent(old(outbox), e)
    {
      if e.key in outbox { return; }
      outbox := outbox[e.key := e];
    }

    /** `decide` */
    method Decide(r: Request) returns (result: Result<DecisionResult, Error>)
      modifies this`approvals, this`decisions, this`decisionByKey, this`continuations, this`outbox
      ensures (View(), result) == Settle(old(View()), r)
    {
      if !ValidRequest(r) { return Err(Invalid); }
      if r.key in decisionByKey {
        var slot := decisionByKey[r.key];
        if slot !in decisions || !SameRequest(decisions[slot], r) { return Err(IdempotencyConflict); }
        result := DecisionResultOf(decisions[slot]);
        return;
      }
      if r.approval !in approvals { return Err(NotFound); }
      var prepared := Prepare(approvals[r.approval], r);
      if prepared.Err? { return Err(prepared.error); }
      var Prepared(updated, decision, continuation, event) := prepared.value;
      var slot := Slot(updated.terms.id, updated.version);
      if slot in decisions { return Err(IdempotencyConflict); }
      Append(event);
      approvals := approvals[updated.terms.id := updated];
      decisions := decisions[slot := decision];
      decisionByKey := decisionByKey[decision.key := slot];
      continuations := continuations[slot := continuation];
      return Ok(DecisionResult(updated, decision, continuation, event, true));
    }

    /** `decisionResultLocked` with `currentOutboxLocked` */
    method DecisionResultOf(d: Decision) returns (result: Result<DecisionResult, Error>)
      ensures result == Replay(View(), d)
    {
      var slot := Slot(d.approval, d.version);
      if d.approval !in approvals || slot !in continuations { return Err(NotFound); }
      var approval, continuation := approvals[d.approval], continuations[slot];
      var event := ContinuationRequested;
      if continuation.executor.RunnerResume? { event := SessionInputRequested; }
      var key := EventKey(approval.terms.id, approval.version, continuation.epoch, event);
      if key !in outbox { return Err(NotFound); }
      return Ok(DecisionResult(approval, d, continuation, outbox[key], false));
    }

    method BindInterruptMapping(id: Id, expectedEpoch: int, mapping: string, mappingEpoch: int) returns (result: Result<Approval, Error>)
      modifies this`approvals
      ensures (View(), result) == BindMapping(old(View()), id, expectedEpoch, mapping, mappingEpoch)
    {
      if id == "" || mapping == "" || expectedEpoch <= 0 || mappingEpoch <= 0 { return Err(Invalid); }
      if id !in approvals { return Err(NotFound); }
      var approval := approvals[id];
      if !approval.terms.review.InterruptReview? { return Err(InvalidTransition); }
      if !approval.status.Pending? || !approval.mode.Interrupt? { return Err(InvalidTransition); }
      if approval.epoch != expectedEpoch { return Err(FallbackFenced); }
      if approval.mapping != "" {
        if approval.mapping == mapping && approval.mappingEpoch == mappingEpoch { return Ok(approval); }
        return Err(FallbackFenced);
      }
      approval := approval.(mapping := mapping, mappingEpoch := mappingEpoch);
      approvals := approvals[approval.terms.id := approval];
      return Ok(approval);
    }

    method SwitchToDurableFallback(id: Id, expectedMode: ExecutionMode, expectedEpoch: int, expectedVersion: int, now: int)
      returns (result: Result<FallbackResult, Error>)
      modifies this`approvals, this`continuations, this`outbox
      ensures (View(), result) == SwitchToFallback(old(View()), id, expectedMode, expectedEpoch, expectedVersion, now)
    {
      if id == "" || expectedEpoch <= 0 || expectedVersion < 0 { return Err(Invalid); }
      if id !in approvals { return Err(NotFound); }
      var approval := approvals[id];
      if !approval.terms.review.InterruptReview? { return Err(ReviewModeImmutable); }
      if approval.mode.DurableFallback? && approval.epoch == expectedEpoch + 1 && approval.version == expectedVersion {
        return FallbackReplay(State(approvals, approvalByCreateKey, decisions, decisionByKey, continuations, outbox), approval);
      }
      if approval.mode != expectedMode || approval.epoch != expectedEpoch || approval.version != expectedVersion { return Err(FallbackFenced); }
      var version := approval.version;
      approval := approval.(mode := DurableFallback, epoch := approval.epoch + 1);
      var continuation: Option<Continuation> := None;
      var slot := Slot(approval.terms.id, version);
      if version > 0 {
        if slot !in continuations { return Err(NotFound); }
        var current := continuations[slot];
        if current.status.Applied? { return Err(FallbackFenced); }
        if current.status.Claimed? && current.leaseUntil.Some? && current.leaseUntil.value > now { return Err(ContinuationBusy); }
        current := current.(executor := Deterministic, epoch := approval.epoch, status := Requested, leaseUntil := None);
        continuation := Some(current);
      }
      var event := Event(EventKey(approval.terms.id, version, approval.epoch, if continuation.Some? then ContinuationRequested else FallbackEnabled),
                         EventPending, 0, now);
      Append(event);
      if continuation.Some? { continuations := continuations[slot := continuation.value]; }
      approvals := approvals[approval.terms.id := approval];
      return Ok(FallbackResult(approval, continuation, event, true));
    }

    method MarkOutboxPublished(k: EventKey) returns (result: Result<(), Error>)
      modifies this`outbox
      ensures (View(), result) == MarkPublished(old(View()), k)
    {
      if k !in outbox { return Err(NotFound); }
      var event := outbox[k];
      if event.status.EventPublished? { return Ok(()); }
      if !event.status.EventPending? { return Err(InvalidTransition); }
      outbox := outbox[k := event.(status := EventPublished)];
      return Ok(());
    }

    method MarkOutboxFailed(k: EventKey, at: int, maxAttempts: int) returns (result: Result<(), Error>)
      modifies this`outbox
      ensures (View(), result) == MarkFailed(old(View()), k, at, maxAttempts)
    {
      if k !in outbox { return Err(NotFound); }
      var event := outbox[k];
      if !event.status.EventPending? { return Ok(()); }
      event := event.(attempts := event.attempts + 1);
      if maxAttempts > 0 && event.attempts >= maxAttempts {
        event := event.(status := EventDead);
      } else {
        event := event.(availableAt := at + Backoff(event.attempts));
      }
      outbox := outbox[k := event];
      return Ok(());
    }
  }
}
