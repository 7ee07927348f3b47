/**
 The loop of the outbox dispatcher: it hands the due rows of a listing to their consumers, one by one,
 and acknowledges or rejects each. Every pass of it is one of the interleavings of `World`.
 */
module OutboxDispatcher {
  import opened GenerationModels
  import opened WorkflowStore
  import opened BatchTransactions
  import opened StoreInvariants
  import opened WorkflowMemory
  import opened World

  /** A barrier request runs the barrier; what other consumers do is not the store's business. */
  function Consumed(s: Store, key: OutboxKey, now: int): Store
    requires key in s.outbox
  {
    if s.outbox[key].event.kind.FinalizeRequested? then OrElse(TryFinalize(s, s.outbox[key].event.batch, now), s) else s
  }

  /** A barrier request is only delivered if the barrier ran. */
  predicate MayDeliver(s: Store, key: OutboxKey, now: int)
    requires key in s.outbox
  {
    s.outbox[key].event.kind.FinalizeRequested? ==> TryFinalize(s, s.outbox[key].event.batch, now).Ok?
  }

  /** A delivered row is acknowledged, another one rejected. */
  function SettledRow(s: Store, key: OutboxKey, delivered: bool, now: int): Store {
    if key !in s.outbox then s
    else if delivered then OrElse(MarkPublished(s, key), s)
    else OrElse(MarkFailed(s, key, now, MaxAttemptsFor(s.outbox[key])), s)
  }

  /** One row handed over and settled. */
  function Relayed(s: Store, key: OutboxKey, delivered: bool, now: int): Store
    requires key in s.outbox
  {
    SettledRow(if delivered then Consumed(s, key, now) else s, key, delivered, now)
  }

  function RelayedAll(s: Store, keys: seq<OutboxKey>, delivered: seq<bool>, now: int): Store
    requires |delivered| == |keys|
  {
    if keys == [] then s
    else
      var n := |keys| - 1;
      var before := RelayedAll(s, keys[..n], delivered[..n], now);
      if keys[n] in before.outbox then Relayed(before, keys[n], delivered[n], now) else before
  }

  /** Every delivery was possible when it happened. */
  ghost predicate Deliverable(s: Store, keys: seq<OutboxKey>, delivered: seq<bool>, now: int)
    requires |delivered| == |keys|
  {
    forall i :: 0 <= i < |keys| && delivered[i] ==>
      var before := RelayedAll(s, keys[..i], delivered[..i], now);
      keys[i] in before.outbox && MayDeliver(before, keys[i], now)
  }

  lemma RelayedNext(s: Store, keys: seq<OutboxKey>, delivered: seq<bool>, now: int, key: OutboxKey, d: bool)
    requires |delivered| == |keys| && Deliverable(s, keys, delivered, now)
    requires var before := RelayedAll(s, keys, delivered, now); key in before.outbox && (d ==> MayDeliver(before, key, now))
    ensures RelayedAll(s, keys + [key], delivered + [d], now) == Relayed(RelayedAll(s, keys, delivered, now), key, d, now)
    ensures Deliverable(s, keys + [key], delivered + [d], now)
  {
    var keys', delivered' := keys + [key], delivered + [d];
    assert keys'[..|keys|] == keys && delivered'[..|keys|] == delivered;
    forall i | 0 <= i < |keys'| && delivered'[i]
      ensures var before := RelayedAll(s, keys'[..i], delivered'[..i], now); keys'[i] in before.outbox && MayDeliver(before, keys'[i], now)
    {
      if i < |keys| { assert keys'[..i] == keys[..i] && delivered'[..i] == delivered[..i]; }
    }
  }

  function CountTrue(bs: seq<bool>): int {
    if bs == [] then 0 else CountTrue(bs[..|bs| - 1]) + (if bs[|bs| - 1] then 1 else 0)
  }

  lemma CountNextTrue(bs: seq<bool>, b: bool)
    ensures CountTrue(bs + [b]) == CountTrue(bs) + (if b then 1 else 0)
  {
    assert (bs + [b])[..|bs|] == bs;
  }

  // ---------------------------------------------------------------- one row

  lemma LinkedInside(s: Store, b: Id)
    requires StoreInv(s)
    ensures b in s.batches ==> Linked(s, b)
  {
  }

  lemma RowFound(outbox: map<EventId, Row>, keys: map<OutboxKey, EventId>, id: EventId)
    requires Paired(outbox, keys) && id in outbox
    ensures outbox[id].event.key in ByKey(outbox, keys) && ByKey(outbox, keys)[outbox[id].event.key] == outbox[id]
  {
  }

  /** Hands one row to its consumer; consumers other than the barrier answer `accepted`. */
  method Consume(store: MemoryStore, id: EventId, accepted: bool, now: int, newId: NewId) returns (delivered: bool)
    requires store.Valid() && id in store.outbox
    requires store.outbox[id].event.batch in store.batches ==> Linked(store.View(), store.outbox[id].event.batch)
    modifies store
    ensures store.Valid() && SameEvents(old(store.outbox), store.outbox)
    ensures var s, key := old(store.View()), old(store.outbox[id].event.key);
            key in s.outbox && store.View() == (if delivered then Consumed(s, key, now) else s) && (delivered ==> MayDeliver(s, key, now))
  {
    RowFound(store.outbox, store.outboxByKey, id);
    delivered := accepted;
    if accepted && store.outbox[id].event.kind.FinalizeRequested? {
      var r := store.TryFinalize(store.outbox[id].event.batch, now, newId);
      delivered := r.Ok?;
    }
  }

  /** Acknowledges or rejects the row; barrier requests are never given up. */
  method SettleRow(store: MemoryStore, id: EventId, delivered: bool, now: int)
    requires store.Valid() && id in store.outbox
    modifies store
    ensures store.Valid() && SameEvents(old(store.outbox), store.outbox)
    ensures store.View() == SettledRow(old(store.View()), old(store.outbox[id].event.key), delivered, now)
  {
    RowFound(store.outbox, store.outboxByKey, id);
    if delivered {
      var _ := store.MarkOutboxPublished(id);
    } else {
      var _ := store.MarkOutboxFailed(id, now, if store.outbox[id].event.kind.FinalizeRequested? then 0 else 10);
    }
  }

  method DispatchOne(store: MemoryStore, id: EventId, accepted: bool, now: int, newId: NewId) returns (delivered: bool)
    requires store.Valid() && StoreInv(store.View()) && id in store.outbox
    modifies store
    ensures store.Valid() && StoreInv(store.View()) && SameEvents(old(store.outbox), store.outbox)
    ensures var s, key := old(store.View()), old(store.outbox[id].event.key);
            key in s.outbox && (delivered ==> MayDeliver(s, key, now)) && store.View() == Relayed(s, key, delivered, now)
  {
    ghost var key := store.outbox[id].event.key;
    LinkedInside(store.View(), store.outbox[id].event.batch);
    delivered := Consume(store, id, accepted, now, newId);
    SettleRow(store, id, delivered, now);
    RelayedKeeps(old(store.View()), key, delivered, now);
  }

  lemma SettlingIsAStep(s: Store, key: OutboxKey, delivered: bool, now: int)
    ensures SettledRow(s, key, delivered, now) == Do(s, if delivered then Acknowledge(key) else Reject(key, now))
  {
  }

  lemma RelayedKeeps(s: Store, key: OutboxKey, delivered: bool, now: int)
    requires StoreInv(s) && key in s.outbox
    ensures StoreInv(Relayed(s, key, delivered, now))
  {
    var b := s.outbox[key].event.batch;
    DoBarrierIs(s, b, now);
    DoKeeps(s, Barrier(b, now));
    var s' := if delivered then Consumed(s, key, now) else s;
    SettlingIsAStep(s', key, delivered, now);
    DoKeeps(s', if delivered then Acknowledge(key) else Reject(key, now));
  }

  // ---------------------------------------------------------------- the loop

  predicate AllStored(rows: map<EventId, Row>, listed: seq<EventId>) { forall i :: 0 <= i < |listed| ==> listed[i] in rows }

  /** The rows among the first `n` of a listing that a pass takes on: those due, up to the limit. */
  function DueIds(rows: map<EventId, Row>, listed: seq<EventId>, n: nat, limit: int, now: int): (ids: seq<EventId>)
    requires n <= |listed| && AllStored(rows, listed)
    ensures AllStored(rows, ids)
  {
    if n == 0 then []
    else
      var earlier := DueIds(rows, listed, n - 1, limit, now);
      if rows[listed[n - 1]].availableAt > now || (limit > 0 && |earlier| >= limit) then earlier else earlier + [listed[n - 1]]
  }

  /** Once the limit is reached nothing more is taken on. */
  lemma {:induction false} LimitHolds(rows: map<EventId, Row>, listed: seq<EventId>, i: nat, n: nat, limit: int, now: int)
    requires AllStored(rows, listed) && i <= n <= |listed|
    requires limit > 0 && |DueIds(rows, listed, i, limit, now)| >= limit
    ensures DueIds(rows, listed, n, limit, now) == DueIds(rows, listed, i, limit, now)
    decreases n
  {
    if i < n { LimitHolds(rows, listed, i, n - 1, limit, now); }
  }

  function KeysOf(rows: map<EventId, Row>, ids: seq<EventId>): (keys: seq<OutboxKey>)
    requires AllStored(rows, ids)
    ensures |keys| == |ids| && forall i :: 0 <= i < |ids| ==> keys[i] == rows[ids[i]].event.key
  {
    seq(|ids|, i requires 0 <= i < |ids| => rows[ids[i]].event.key)
  }

  /** What a pass has done when it has handed over these rows with these outcomes. */
  ghost predicate Dispatched(s: Store, s': Store, keys: seq<OutboxKey>, delivered: seq<bool>, published: int, now: int) {
    && |delivered| == |keys| && published == CountTrue(delivered)
    && s' == RelayedAll(s, keys, delivered, now) && Deliverable(s, keys, delivered, now)
  }

  lemma DispatchedNext(s: Store, s': Store, keys: seq<OutboxKey>, delivered: seq<bool>, published: int, now: int, key: OutboxKey, d: bool)
    requires Dispatched(s, s', keys, delivered, published, now) && key in s'.outbox && (d ==> MayDeliver(s', key, now))
    ensures Dispatched(s, Relayed(s', key, d, now), keys + [key], delivered + [d], published + (if d then 1 else 0), now)
  {
    RelayedNext(s, keys, delivered, now, key, d);
    CountNextTrue(delivered, d);
  }

  /** The dispatcher is through with the first `n` rows of its listing; their events are what they were when listed. */
  ghost predicate Passing(store: MemoryStore, rows: map<EventId, Row>, listed: seq<EventId>, n: nat, limit: int,
                          s: Store, delivered: seq<bool>, published: int, now: int)
    reads store
  {
    && n <= |listed| && AllStored(rows, listed) && store.Valid() && StoreInv(store.View()) && SameEvents(rows, store.outbox)
    && Dispatched(s, store.View(), KeysOf(rows, DueIds(rows, listed, n, limit, now)), delivered, published, now)
  }

  lemma NothingPassed(store: MemoryStore, listed: seq<EventId>, limit: int, now: int)
    requires store.Valid() && StoreInv(store.View()) && AllStored(store.outbox, listed)
    ensures Passing(store, store.outbox, listed, 0, limit, store.View(), [], 0, now)
  {
  }

  /** A row that is not due is passed over. */
  lemma RowSkipped(store: MemoryStore, rows: map<EventId, Row>, listed: seq<EventId>, n: nat, limit: int,
                   s: Store, delivered: seq<bool>, published: int, now: int)
    requires n < |listed| && AllStored(rows, listed) && rows[listed[n]].availableAt > now
    requires Passing(store, rows, listed, n, limit, s, delivered, published, now)
    ensures Passing(store, rows, listed, n + 1, limit, s, delivered, published, now)
  {
    assert DueIds(rows, listed, n + 1, limit, now) == DueIds(rows, listed, n, limit, now);
  }

  /** At the limit the pass is over. */
  lemma LimitReached(store: MemoryStore, rows: map<EventId, Row>, listed: seq<EventId>, n: nat, limit: int,
                     s: Store, delivered: seq<bool>, published: int, now: int)
    requires n <= |listed| && AllStored(rows, listed) && limit > 0 && |DueIds(rows, listed, n, limit, now)| >= limit
    requires Passing(store, rows, listed, n, limit, s, delivered, published, now)
    ensures Passing(store, rows, listed, |listed|, limit, s, delivered, published, now)
  {
    LimitHolds(rows, listed, n, |listed|, limit, now);
  }

  method DispatchNext(store: MemoryStore, rows: map<EventId, Row>, listed: seq<EventId>, n: nat, limit: int,
                      ghost s: Store, ghost delivered: seq<bool>, published: int, accepted: bool, now: int, newId: NewId)
    returns (d: bool)
    requires n < |listed| && AllStored(rows, listed) && rows[listed[n]].availableAt <= now
    requires limit <= 0 || |DueIds(rows, listed, n, limit, now)| < limit
    requires Passing(store, rows, listed, n, limit, s, delivered, published, now)
    modifies store
    ensures Passing(store, rows, listed, n + 1, limit, s, delivered + [d], published + (if d then 1 else 0), now)
    ensures |DueIds(rows, listed, n + 1, limit, now)| == |DueIds(rows, listed, n, limit, now)| + 1
  {
    ghost var s', id, ids := store.View(), listed[n], DueIds(rows, listed, n, limit, now);
    d := DispatchOne(store, listed[n], accepted, now, newId);
    DispatchedNext(s, s', KeysOf(rows, ids), delivered, published, now, rows[id].event.key, d);
    assert DueIds(rows, listed, n + 1, limit, now) == ids + [id];
    assert KeysOf(rows, ids + [id]) == KeysOf(rows, ids) + [rows[id].event.key];
  }

  /** `DispatchPending`, over a listing of the outbox. */
  method DispatchPending(store: MemoryStore, listed: seq<EventId>, limit: int, now: int, answers: nat -> bool, newIds: nat -> NewId)
    returns (published: int, ghost delivered: seq<bool>)
    requires store.Valid() && StoreInv(store.View()) && AllStored(store.outbox, listed)
    modifies store
    ensures Passing(store, old(store.outbox), listed, |listed|, limit, old(store.View()), delivered, published, now)
  {
    var rows, due := store.outbox, 0;
    ghost var s := store.View();
    published, delivered := 0, [];
    NothingPassed(store, listed, limit, now);
    for i := 0 to |listed|
      invariant Passing(store, rows, listed, i, limit, s, delivered, published, now)
      invariant due == |DueIds(rows, listed, i, limit, now)|
    {
      if rows[listed[i]].availableAt > now {
        RowSkipped(store, rows, listed, i, limit, s, delivered, published, now);
        continue;
      }
      if limit > 0 && due >= limit {
        LimitReached(store, rows, listed, i, limit, s, delivered, published, now);
        break;
      }
      due := due + 1;
      var d := DispatchNext(store, rows, listed, i, limit, s, delivered, published, answers(i), now, newIds(i));
      delivered := delivered + [d];
      if d { published := published + 1; }
    }
  }

  // ---------------------------------------------------------------- as a run

  lemma TakeStep(w: World, t: nat, key: OutboxKey)
    requires t !in w.threads && key in w.store.outbox && w.store.outbox[key].status.RowPending?
    ensures Step(w, Take(t, key)) == w.(threads := w.threads[t := Relay(key, Holding)])
  {
  }

  lemma PublishStep(w: World, t: nat, key: OutboxKey, delivered: bool, now: int)
    requires t in w.threads && w.threads[t] == Relay(key, Holding) && key in w.store.outbox
    requires delivered ==> MayDeliver(w.store, key, now)
    ensures Step(w, Publish(t, delivered, now)) ==
      World(if delivered then Consumed(w.store, key, now) else w.store, w.ledger,
                  w.threads[t := Relay(key, if delivered then Tried else Declined)])
  {
  }

  lemma SettleStep(w: World, t: nat, key: OutboxKey, delivered: bool, now: int)
    requires t in w.threads && w.threads[t] == Relay(key, if delivered then Tried else Declined)
    ensures Step(w, Settle(t, now)) == World(SettledRow(w.store, key, delivered, now), w.ledger, w.threads - {t})
  {
    SettlingIsAStep(w.store, key, delivered, now);
  }

  function RowLabels(t: nat, key: OutboxKey, delivered: bool, now: int): seq<Label> {
    [Take(t, key), Publish(t, delivered, now), Settle(t, now)]
  }

  lemma ThreeLabels(labels: seq<Label>, a: Label, b: Label, c: Label)
    ensures labels + [a] + [b] + [c] == labels + [a, b, c]
  {
  }

  /** Handing over one row is three steps of a relay. */
  lemma RowIsARun(labels: seq<Label>, w: World, t: nat, key: OutboxKey, delivered: bool, now: int)
    requires Run(labels) == w && t !in w.threads && key in w.store.outbox && w.store.outbox[key].status.RowPending?
    requires delivered ==> MayDeliver(w.store, key, now)
    ensures Run(labels + RowLabels(t, key, delivered, now)) == w.(store := Relayed(w.store, key, delivered, now))
  {
    var w1 := w.(threads := w.threads[t := Relay(key, Holding)]);
    var w2 := World(if delivered then Consumed(w.store, key, now) else w.store, w.ledger,
                    w1.threads[t := Relay(key, if delivered then Tried else Declined)]);
    var w3 := World(SettledRow(w2.store, key, delivered, now), w.ledger, w2.threads - {t});
    TakeStep(w, t, key);
    RunNext(labels, w, Take(t, key), w1);
    PublishStep(w1, t, key, delivered, now);
    RunNext(labels + [Take(t, key)], w1, Publish(t, delivered, now), w2);
    SettleStep(w2, t, key, delivered, now);
    RunNext(labels + [Take(t, key)] + [Publish(t, delivered, now)], w2, Settle(t, now), w3);
    ThreeLabels(labels, Take(t, key), Publish(t, delivered, now), Settle(t, now));
    assert w3.threads == w.threads;
  }

  function PassLabels(t: nat, keys: seq<OutboxKey>, delivered: seq<bool>, now: int): seq<Label>
    requires |delivered| == |keys|
  {
    if keys == [] then []
    else
      var n := |keys| - 1;
      PassLabels(t, keys[..n], delivered[..n], now) + RowLabels(t, keys[n], delivered[n], now)
  }

  lemma BarrierKeepsRow(s: Store, b: Id, now: int, k: OutboxKey)
    requires TryFinalize(s, b, now).Ok? && k in s.outbox
    ensures var s' := TryFinalize(s, b, now).value; k in s'.outbox && s'.outbox[k] == s.outbox[k]
  {
  }

  lemma RelayedOther(s: Store, key: OutboxKey, delivered: bool, now: int, k: OutboxKey)
    requires key in s.outbox && k in s.outbox && k != key
    ensures var s' := Relayed(s, key, delivered, now); k in s'.outbox && s'.outbox[k] == s.outbox[k]
  {
    var b := s.outbox[key].event.batch;
    if TryFinalize(s, b, now).Ok? { BarrierKeepsRow(s, b, now, k); }
  }

  lemma {:induction false} RelayedAllOther(s: Store, keys: seq<OutboxKey>, delivered: seq<bool>, now: int, k: OutboxKey)
    requires |delivered| == |keys| && k in s.outbox && k !in keys
    ensures var s' := RelayedAll(s, keys, delivered, now); k in s'.outbox && s'.outbox[k] == s.outbox[k]
    decreases |keys|
  {
    if keys != [] {
      var n := |keys| - 1;
      RelayedAllOther(s, keys[..n], delivered[..n], now, k);
      var before := RelayedAll(s, keys[..n], delivered[..n], now);
      if keys[n] in before.outbox { RelayedOther(before, keys[n], delivered[n], now, k); }
    }
  }

  ghost predicate Listing(s: Store, keys: seq<OutboxKey>) {
    && (forall i :: 0 <= i < |keys| ==> keys[i] in s.outbox && s.outbox[keys[i]].status.RowPending?)
    && (forall i, k :: 0 <= i < k < |keys| ==> keys[i] != keys[k])
  }

  ghost predicate Distinct(ids: seq<EventId>) { forall i, k :: 0 <= i < k < |ids| ==> ids[i] != ids[k] }

  ghost predicate AmongFirst(ids: seq<EventId>, listed: seq<EventId>, n: nat) {
    n <= |listed| && forall i :: 0 <= i < |ids| ==> exists k :: 0 <= k < n && listed[k] == ids[i]
  }

  lemma {:induction false} DueAreListed(rows: map<EventId, Row>, listed: seq<EventId>, n: nat, limit: int, now: int)
    requires n <= |listed| && Distinct(listed) && AllStored(rows, listed)
    ensures var ids := DueIds(rows, listed, n, limit, now); AmongFirst(ids, listed, n) && Distinct(ids)
  {
    if n > 0 {
      DueAreListed(rows, listed, n - 1, limit, now);
      DistinctNext(DueIds(rows, listed, n - 1, limit, now), listed, n - 1);
    }
  }

  lemma DistinctNext(ids: seq<EventId>, listed: seq<EventId>, n: nat)
    requires n < |listed| && AmongFirst(ids, listed, n) && Distinct(ids) && Distinct(listed)
    ensures AmongFirst(ids, listed, n + 1) && AmongFirst(ids + [listed[n]], listed, n + 1) && Distinct(ids + [listed[n]])
  {
    forall i | 0 <= i < |ids| ensures ids[i] != listed[n] && exists k :: 0 <= k < n + 1 && listed[k] == ids[i] {
      var k :| 0 <= k < n && listed[k] == ids[i];
    }
    var more := ids + [listed[n]];
    forall i | 0 <= i < |more| ensures exists k :: 0 <= k < n + 1 && listed[k] == more[i] {
      if i == |ids| { assert listed[n] == more[i]; } else { assert more[i] == ids[i]; }
    }
  }

  /** The rows a pass takes from a listing of distinct pending rows are such a listing by key. */
  lemma PassHasListing(s: Store, rows: map<EventId, Row>, keys: map<OutboxKey, EventId>, listed: seq<EventId>, limit: int, now: int)
    requires Paired(rows, keys) && s.outbox == ByKey(rows, keys)
    requires forall k :: 0 <= k < |listed| ==> listed[k] in rows && rows[listed[k]].status.RowPending?
    requires Distinct(listed)
    ensures Listing(s, KeysOf(rows, DueIds(rows, listed, |listed|, limit, now)))
  {
    DueAreListed(rows, listed, |listed|, limit, now);
  }

  lemma DeliverableEarlier(s: Store, keys: seq<OutboxKey>, delivered: seq<bool>, now: int, n: nat)
    requires |delivered| == |keys| && n <= |keys| && Deliverable(s, keys, delivered, now)
    ensures Deliverable(s, keys[..n], delivered[..n], now)
  {
    forall i | 0 <= i < n && delivered[..n][i]
      ensures var before := RelayedAll(s, keys[..n][..i], delivered[..n][..i], now);
              keys[..n][i] in before.outbox && MayDeliver(before, keys[..n][i], now)
    {
      assert keys[..n][..i] == keys[..i] && delivered[..n][..i] == delivered[..i];
    }
  }

  lemma LabelsJoin(a: seq<Label>, b: seq<Label>, c: seq<Label>)
    ensures a + (b + c) == (a + b) + c
  {
  }

  lemma PassNext(labels: seq<Label>, t: nat, w: World, s: Store, earlier: seq<Label>, key: OutboxKey, d: bool, now: int)
    requires Run(labels + earlier) == w.(store := s) && t !in w.threads && key in s.outbox && s.outbox[key].status.RowPending?
    requires d ==> MayDeliver(s, key, now)
    ensures Run(labels + (earlier + RowLabels(t, key, d, now))) == w.(store := Relayed(s, key, d, now))
  {
    RowIsARun(labels + earlier, w.(store := s), t, key, d, now);
    LabelsJoin(labels, earlier, RowLabels(t, key, d, now));
  }

  lemma ListingEarlier(s: Store, keys: seq<OutboxKey>, delivered: seq<bool>, now: int, n: nat)
    requires |delivered| == |keys| && n < |keys| && Listing(s, keys)
    ensures Listing(s, keys[..n])
    ensures var before := RelayedAll(s, keys[..n], delivered[..n], now); keys[n] in before.outbox && before.outbox[keys[n]].status.RowPending?
  {
    RelayedAllOther(s, keys[..n], delivered[..n], now, keys[n]);
  }

  /** A whole pass over pending rows is a run of one relay, so whatever holds of all runs holds of the dispatcher's. */
  lemma {:induction false} PassIsARun(labels: seq<Label>, w: World, t: nat, keys: seq<OutboxKey>, delivered: seq<bool>, now: int)
    requires Run(labels) == w && t !in w.threads
    requires |delivered| == |keys| && Listing(w.store, keys) && Deliverable(w.store, keys, delivered, now)
    ensures Run(labels + PassLabels(t, keys, delivered, now)) == w.(store := RelayedAll(w.store, keys, delivered, now))
    decreases |keys|
  {
    if keys == [] {
      assert labels + [] == labels;
    } else {
      var n := |keys| - 1;
      DeliverableEarlier(w.store, keys, delivered, now, n);
      ListingEarlier(w.store, keys, delivered, now, n);
      PassIsARun(labels, w, t, keys[..n], delivered[..n], now);
      var before := RelayedAll(w.store, keys[..n], delivered[..n], now);
      PassNext(labels, t, w, before, PassLabels(t, keys[..n], delivered[..n], now), keys[n], delivered[n], now);
    }
  }

  /**
   The dispatcher as a run: if its store is that of a run when it lists distinct pending rows,
   then its store after the pass is that of the run continued by one relay.
   */
  lemma DispatchIsARun(labels: seq<Label>, w: World, t: nat, store: MemoryStore, rows: map<EventId, Row>, keys: map<OutboxKey, EventId>,
                       listed: seq<EventId>, limit: int, delivered: seq<bool>, published: int, now: int)
    requires Run(labels) == w && t !in w.threads
    requires Paired(rows, keys) && w.store.outbox == ByKey(rows, keys)
    requires Distinct(listed) && forall k :: 0 <= k < |listed| ==> listed[k] in rows && rows[listed[k]].status.RowPending?
    requires Passing(store, rows, listed, |listed|, limit, w.store, delivered, published, now)
    ensures var due := KeysOf(rows, DueIds(rows, listed, |listed|, limit, now));
            |delivered| == |due| && Run(labels + PassLabels(t, due, delivered, now)) == w.(store := store.View())
  {
    PassHasListing(w.store, rows, keys, listed, limit, now);
    PassIsARun(labels, w, t, KeysOf(rows, DueIds(rows, listed, |listed|, limit, now)), delivered, now);
  }
}
