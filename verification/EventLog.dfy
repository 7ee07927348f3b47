/** The session event log: rows numbered from one per session, appended once per identity, read by cursor. */
module EventLog {
  import opened Basics

  type Id = string

  /** What a producer submits; the store adds the sequence number. */
  datatype Fact = Fact(
    session: Id, id: Id, kind: string, producer: string, source: string, index: int,
    surface: string, model: string, payload: string)

  datatype Row = Row(fact: Fact, number: int)

  datatype Source = Source(session: Id, producer: string, source: string, index: int)

  datatype Error = Invalid | IdempotencyConflict

  function SourceOf(f: Fact): Source { Source(f.session, f.producer, f.source, f.index) }

  const MAX_EVENT_ID_LENGTH := 128

  predicate ValidFact(f: Fact) {
    f.session != "" && f.id != "" && |f.id| <= MAX_EVENT_ID_LENGTH && f.kind != "" && f.producer != "" && f.source != "" && f.index >= 0
  }

  function TailLimit(limit: int): int { if limit <= 0 then 100 else if limit > 1000 then 1000 else limit }

  // ---------------------------------------------------------------- reading by cursor

  /** The rows past the cursor, picked one by one. */
  function After(rows: seq<Row>, cursor: int): seq<Row> {
    if rows == [] then []
    else
      var rest := After(rows[..|rows| - 1], cursor);
      if rows[|rows| - 1].number > cursor then rest + [rows[|rows| - 1]] else rest
  }

  function Take<T>(s: seq<T>, n: int): seq<T> { if n <= 0 then [] else if n >= |s| then s else s[..n] }

  ghost predicate Numbered(rows: seq<Row>) { forall i :: 0 <= i < |rows| ==> rows[i].number == i + 1 }

  function Clamp(n: int, hi: nat): nat { if n < 0 then 0 else if n > hi then hi else n }

  /** In a numbered log the rows past a cursor are a suffix. */
  lemma {:induction false} AfterIsSuffix(rows: seq<Row>, cursor: int)
    requires Numbered(rows)
    ensures After(rows, cursor) == rows[Clamp(cursor, |rows|)..]
    decreases |rows|
  {
    if rows != [] {
      var n := |rows| - 1;
      AfterIsSuffix(rows[..n], cursor);
      if cursor <= n {
        assert rows[Clamp(cursor, |rows|)..] == rows[..n][Clamp(cursor, n)..] + [rows[n]];
      }
    }
  }

  /** A tail read of a numbered log, as a slice. */
  lemma TailIsSlice(rows: seq<Row>, cursor: int, n: nat)
    requires Numbered(rows)
    ensures var start := Clamp(cursor, |rows|);
            Take(After(rows, cursor), n) == rows[start..if start + n < |rows| then start + n else |rows|]
  {
    AfterIsSuffix(rows, cursor);
  }

  /** `sort.Search`: the first index at which the predicate, monotone along the rows, holds. */
  method SearchAfter(rows: seq<Row>, cursor: int) returns (start: nat)
    requires Numbered(rows)
    ensures start <= |rows|
    ensures forall i :: 0 <= i < start ==> rows[i].number <= cursor
    ensures forall i :: start <= i < |rows| ==> rows[i].number > cursor
  {
    var lo, hi := 0, |rows|;
    while lo < hi
      invariant 0 <= lo <= hi <= |rows|
      invariant forall i :: 0 <= i < lo ==> rows[i].number <= cursor
      invariant forall i :: hi <= i < |rows| ==> rows[i].number > cursor
    {
      var mid := (lo + hi) / 2;
      if rows[mid].number > cursor { hi := mid; } else { lo := mid + 1; }
    }
    start := lo;
  }

  lemma SplitIsClamp(rows: seq<Row>, cursor: int, start: nat)
    requires Numbered(rows) && start <= |rows|
    requires forall i :: 0 <= i < start ==> rows[i].number <= cursor
    requires forall i :: start <= i < |rows| ==> rows[i].number > cursor
    ensures start == Clamp(cursor, |rows|)
  {
    if start > 0 { assert rows[start - 1].number == start; }
    if start < |rows| { assert rows[start].number == start + 1; }
  }

  /** The body of `Tail`: search, then copy up to the limit. */
  method Window(rows: seq<Row>, cursor: int, limit: nat) returns (out: seq<Row>)
    requires Numbered(rows)
    ensures out == Take(After(rows, cursor), limit)
  {
    var start := SearchAfter(rows, cursor);
    var end := if |rows| < start + limit then |rows| else start + limit;
    TailIsSlice(rows, cursor, limit);
    SplitIsClamp(rows, cursor, start);
    out := [];
    for i := start to end
      invariant out == rows[start..i]
    {
      out := out + [rows[i]];
    }
  }

  // ---------------------------------------------------------------- the store

  /** The three indexes tell the same story. */
  ghost predicate Agree(counters: map<Id, int>, byEvent: map<Id, Row>, bySource: map<Source, Row>, bySession: map<Id, seq<Row>>) {
    && counters.Keys == bySession.Keys
    && (forall x :: x in bySession ==> Numbered(bySession[x]) && counters[x] == |bySession[x]|)
    && (forall x, i :: x in bySession && 0 <= i < |bySession[x]| ==> Indexed(bySession[x][i], x, byEvent, bySource))
    && (forall id :: id in byEvent ==> byEvent[id].fact.id == id && InLog(byEvent[id], bySession))
    && (forall k :: k in bySource ==> SourceOf(bySource[k].fact) == k && InLog(bySource[k], bySession))
  }

  ghost predicate Indexed(r: Row, session: Id, byEvent: map<Id, Row>, bySource: map<Source, Row>) {
    && r.fact.session == session
    && r.fact.id in byEvent && byEvent[r.fact.id] == r
    && SourceOf(r.fact) in bySource && bySource[SourceOf(r.fact)] == r
  }

  ghost predicate InLog(r: Row, bySession: map<Id, seq<Row>>) {
    r.fact.session in bySession && 1 <= r.number <= |bySession[r.fact.session]| && bySession[r.fact.session][r.number - 1] == r
  }

  class MemoryStore {
    var counters: map<Id, int>
    var byEvent: map<Id, Row>
    var bySource: map<Source, Row>
    var bySession: map<Id, seq<Row>>

    ghost predicate Valid()
      reads this
    {
      Agree(counters, byEvent, bySource, bySession)
    }

    /** The log of one session. */
    ghost function Log(session: Id): seq<Row>
      reads this
    {
      if session in bySession then bySession[session] else []
    }

    constructor ()
      ensures Valid() && bySession == map[]
    {
      counters, byEvent, bySource, bySession := map[], map[], map[], map[];
    }

    /** Appends the fact, or answers the row that already carries its identity. */
    method AppendSessionEventOnce(f: Fact) returns (result: Result<(Row, bool), Error>)
      requires Valid()
      modifies this
      ensures Valid()
      ensures result.Ok? && result.value.1 ==>
        && f.id !in old(byEvent) && SourceOf(f) !in old(bySource)
        && result.value.0 == Row(f, |old(Log(f.session))| + 1)
        && bySession == old(bySession)[f.session := old(Log(f.session)) + [result.value.0]]
      ensures !(result.Ok? && result.value.1) ==> bySession == old(bySession) && byEvent == old(byEvent) && bySource == old(bySource)
      ensures result.Ok? ==> result.value.0.fact == f && InLog(result.value.0, bySession)
      ensures result.Err? <==> !ValidFact(f) || (f.id in old(byEvent) && old(byEvent)[f.id].fact != f)
                               || (f.id !in old(byEvent) && SourceOf(f) in old(bySource))
    {
      if !ValidFact(f) { return Err(Invalid); }
      if f.id in byEvent {
        if byEvent[f.id].fact != f { return Err(IdempotencyConflict); }
        return Ok((byEvent[f.id], false));
      }
      var key := SourceOf(f);
      if key in bySource {
        if bySource[key].fact != f { return Err(IdempotencyConflict); }
        return Ok((bySource[key], false));
      }
      var row := Insert(f);
      return Ok((row, true));
    }

    /** The end of `AppendSessionEventOnce`: number the fact and enter it in every index. */
    method Insert(f: Fact) returns (row: Row)
      requires Valid() && f.id !in byEvent && SourceOf(f) !in bySource
      modifies this
      ensures Valid()
      ensures row == Row(f, |old(Log(f.session))| + 1)
      ensures bySession == old(bySession)[f.session := old(Log(f.session)) + [row]]
    {
      var n := (if f.session in counters then counters[f.session] else 0) + 1;
      row := Row(f, n);
      var rows := if f.session in bySession then bySession[f.session] else [];
      assert n == |rows| + 1;
      AppendKeepsAgreement(counters, byEvent, bySource, bySession, f);
      counters, byEvent, bySource, bySession :=
        counters[f.session := n], byEvent[f.id := row], bySource[SourceOf(f) := row], bySession[f.session := rows + [row]];
    }

    method Tail(session: Id, cursor: int, limit: int) returns (out: seq<Row>)
      requires Valid()
      ensures out == Take(After(Log(session), cursor), TailLimit(limit))
    {
      var rows := if session in bySession then bySession[session] else [];
      out := Window(rows, cursor, TailLimit(limit));
    }

    method CurrentSeq(session: Id) returns (n: int)
      requires Valid()
      ensures n == |Log(session)|
    {
      n := if session in counters then counters[session] else 0;
    }
  }

  lemma IndexedLater(r: Row, x: Id, byEvent: map<Id, Row>, bySource: map<Source, Row>, row: Row)
    requires Indexed(r, x, byEvent, bySource) && row.fact.id !in byEvent && SourceOf(row.fact) !in bySource
    ensures Indexed(r, x, byEvent[row.fact.id := row], bySource[SourceOf(row.fact) := row])
  {
  }

  lemma InLogLater(r: Row, bySession: map<Id, seq<Row>>, session: Id, row: Row)
    requires InLog(r, bySession)
    ensures InLog(r, bySession[session := (if session in bySession then bySession[session] else []) + [row]])
  {
  }

  lemma AppendKeepsAgreement(counters: map<Id, int>, byEvent: map<Id, Row>, bySource: map<Source, Row>, bySession: map<Id, seq<Row>>, f: Fact)
    requires Agree(counters, byEvent, bySource, bySession) && f.id !in byEvent && SourceOf(f) !in bySource
    ensures var rows := if f.session in bySession then bySession[f.session] else [];
            var row := Row(f, |rows| + 1);
            Agree(counters[f.session := |rows| + 1], byEvent[f.id := row], bySource[SourceOf(f) := row], bySession[f.session := rows + [row]])
  {
    var rows := if f.session in bySession then bySession[f.session] else [];
    var row := Row(f, |rows| + 1);
    var events', sources', sessions' := byEvent[f.id := row], bySource[SourceOf(f) := row], bySession[f.session := rows + [row]];
    forall x, i | x in sessions' && 0 <= i < |sessions'[x]| ensures Indexed(sessions'[x][i], x, events', sources') {
      if x != f.session || i < |rows| {
        assert Indexed(bySession[x][i], x, byEvent, bySource);
        IndexedLater(bySession[x][i], x, byEvent, bySource, row);
      }
    }
    forall id | id in events' ensures events'[id].fact.id == id && InLog(events'[id], sessions') {
      if id != f.id { InLogLater(byEvent[id], bySession, f.session, row); }
    }
    forall k | k in sources' ensures SourceOf(sources'[k].fact) == k && InLog(sources'[k], sessions') {
      if k != SourceOf(f) { InLogLater(bySource[k], bySession, f.session, row); }
    }
  }
}

/** The tail relay: whatever is appended meanwhile and wherever the consumer fails, it delivers the log, in order, once. */
module TailRelay {
  import opened EventLog

  /** Feeds one batch to the consumer, moving the cursor past each row. */
  method Feed(rows: seq<Row>, cursor: int) returns (last: int)
    ensures last == if rows == [] then cursor else rows[|rows| - 1].number
  {
    last := cursor;
    for i := 0 to |rows|
      invariant last == if i == 0 then cursor else rows[i - 1].number
    {
      last := rows[i].number;
    }
  }

  lemma NextBatch(log: seq<Row>, last: int, batch: nat)
    requires Numbered(log)
    ensures var at, rows := Clamp(last, |log|), Take(After(log, last), batch);
            && at + |rows| <= |log| && rows == log[at..at + |rows|]
            && (|rows| < batch ==> at + |rows| == |log|)
            && (rows != [] ==> rows[|rows| - 1].number == at + |rows|)
  {
    TailIsSlice(log, last, batch);
  }

  lemma LogNumbered(store: MemoryStore, session: Id)
    requires store.Valid()
    ensures Numbered(store.Log(session))
  {
  }

  /** The drain has consumed the log from the cursor up to `at`. */
  ghost predicate Drained(log: seq<Row>, cursor: int, at: nat, last: int, delivered: seq<Row>) {
    var start := Clamp(cursor, |log|);
    && start <= at <= |log| && delivered == log[start..at]
    && last == if at == start then cursor else at
  }

  lemma DrainBatch(log: seq<Row>, cursor: int, at: nat, last: int, delivered: seq<Row>, rows: seq<Row>, batch: nat)
    requires Numbered(log) && Drained(log, cursor, at, last, delivered) && rows == Take(After(log, last), batch)
    ensures Drained(log, cursor, at + |rows|, if rows == [] then last else rows[|rows| - 1].number, delivered + rows)
    ensures |rows| != batch ==> at + |rows| == |log|
  {
    assert Clamp(last, |log|) == at;
    NextBatch(log, last, batch);
    SlicesJoin(log, Clamp(cursor, |log|), at, at + |rows|);
  }

  lemma SlicesJoin(log: seq<Row>, a: nat, b: nat, c: nat)
    requires a <= b <= c <= |log|
    ensures log[a..b] + log[b..c] == log[a..c]
  {
  }

  lemma DrainEnds(log: seq<Row>, cursor: int, last: int, delivered: seq<Row>)
    requires Numbered(log) && Drained(log, cursor, |log|, last, delivered)
    ensures delivered == After(log, cursor) && last == if delivered == [] then cursor else delivered[|delivered| - 1].number
  {
    AfterIsSuffix(log, cursor);
  }

  /** One drain of the loop: fetch batches until one is short, consuming each row and advancing the cursor. */
  method Drain(store: MemoryStore, session: Id, cursor: int, batch: int) returns (last: int, delivered: seq<Row>)
    requires store.Valid() && 1 <= batch <= 1000
    ensures delivered == After(store.Log(session), cursor)
    ensures last == if delivered == [] then cursor else delivered[|delivered| - 1].number
  {
    ghost var log := store.Log(session);
    ghost var at: nat := Clamp(cursor, |log|);
    LogNumbered(store, session);
    last, delivered := cursor, [];
    var more := true;
    while more
      invariant Drained(log, cursor, at, last, delivered)
      invariant more || at == |log|
      decreases |log| - at + (if more then 1 else 0)
    {
      var rows := store.Tail(session, last, batch);
      DrainBatch(log, cursor, at, last, delivered, rows, batch);
      last := Feed(rows, last);
      delivered := delivered + rows;
      more := |rows| == batch;
      at := at + |rows|;
    }
    DrainEnds(log, cursor, last, delivered);
  }

  // ---------------------------------------------------------------- interleavings

  /** A relay between two atomic actions: rows fetched but not yet consumed, and what the consumer acknowledged so far. */
  datatype Relay = Relay(log: seq<Row>, cursor: int, pending: seq<Row>, delivered: seq<Row>)

  datatype Action =
    | Append(fact: Fact)          // some producer appends to the session
    | Fetch(limit: int)           // the relay reads a batch
    | Consume                     // the consumer acknowledges the next row
    | Drop                        // the consumer fails; the client reconnects from its last acknowledged cursor

  function Act(r: Relay, a: Action): Relay {
    match a
    case Append(fact) => r.(log := r.log + [Row(fact, |r.log| + 1)])
    case Fetch(limit) => if r.pending == [] then r.(pending := Take(After(r.log, r.cursor), TailLimit(limit))) else r
    case Consume =>
      if r.pending == [] then r
      else r.(cursor := r.pending[0].number, pending := r.pending[1..], delivered := r.delivered + [r.pending[0]])
    case Drop => r.(pending := [])
  }

  function Run(log: seq<Row>, start: int, actions: seq<Action>): Relay {
    if actions == [] then Relay(log, start, [], []) else Act(Run(log, start, actions[..|actions| - 1]), actions[|actions| - 1])
  }

  /** Rows numbered past `lo` and up to `hi`. */
  function Between(log: seq<Row>, lo: int, hi: int): seq<Row> {
    log[Clamp(lo, |log|)..Clamp(if hi < lo then lo else hi, |log|)]
  }

  ghost predicate Inv(r: Relay, start: int) {
    && Numbered(r.log) && start <= r.cursor
    && r.delivered == Between(r.log, start, r.cursor)
    && (r.pending != [] ==>
          var at := Clamp(r.cursor, |r.log|); at + |r.pending| <= |r.log| && r.pending == r.log[at..at + |r.pending|])
    && (r.cursor > start ==> r.cursor <= |r.log|)
  }

  lemma SliceOfLonger(log: seq<Row>, row: Row, lo: nat, hi: nat)
    requires lo <= hi <= |log|
    ensures (log + [row])[lo..hi] == log[lo..hi]
  {
  }

  lemma AppendKeeps(r: Relay, start: int, fact: Fact)
    requires Inv(r, start)
    ensures Inv(Act(r, Append(fact)), start)
  {
    var row := Row(fact, |r.log| + 1);
    assert Numbered(r.log + [row]);
    var lo, hi := Clamp(start, |r.log|), Clamp(r.cursor, |r.log|);
    if r.cursor <= |r.log| {
      SliceOfLonger(r.log, row, lo, hi);
      if r.pending != [] { SliceOfLonger(r.log, row, hi, hi + |r.pending|); }
    } else {
      assert r.cursor == start && r.pending == [];
    }
  }

  lemma FetchKeeps(r: Relay, start: int, limit: int)
    requires Inv(r, start)
    ensures Inv(Act(r, Fetch(limit)), start)
  {
    TailIsSlice(r.log, r.cursor, TailLimit(limit));
  }

  lemma ConsumeKeeps(r: Relay, start: int)
    requires Inv(r, start)
    ensures Inv(Act(r, Consume), start)
  {
    if r.pending != [] {
      var at := Clamp(r.cursor, |r.log|);
      assert r.pending[0] == r.log[at] && r.log[at].number == at + 1;
      assert Between(r.log, start, at + 1) == Between(r.log, start, r.cursor) + [r.log[at]];
      assert r.pending[1..] == r.log[at + 1..at + |r.pending|];
    }
  }

  lemma ActKeeps(r: Relay, start: int, a: Action)
    requires Inv(r, start)
    ensures Inv(Act(r, a), start)
  {
    match a {
      case Append(fact) => AppendKeeps(r, start, fact);
      case Fetch(limit) => FetchKeeps(r, start, limit);
      case Consume => ConsumeKeeps(r, start);
      case Drop =>
    }
  }

  /** Under any interleaving the consumer has acknowledged exactly the log between its start and its cursor. */
  lemma {:induction false} RelayDeliversTheLog(log: seq<Row>, start: int, actions: seq<Action>)
    requires Numbered(log)
    ensures Inv(Run(log, start, actions), start)
    decreases |actions|
  {
    if actions == [] {
      assert Between(log, start, start) == [];
    } else {
      RelayDeliversTheLog(log, start, actions[..|actions| - 1]);
      ActKeeps(Run(log, start, actions[..|actions| - 1]), start, actions[|actions| - 1]);
    }
  }

  /** An idle relay whose fetch comes back empty has delivered everything there is. */
  lemma EmptyFetchMeansCaughtUp(log: seq<Row>, start: int, actions: seq<Action>)
    requires Numbered(log)
    requires After(Run(log, start, actions).log, Run(log, start, actions).cursor) == []
    ensures Run(log, start, actions).delivered == After(Run(log, start, actions).log, start)
  {
    var r := Run(log, start, actions);
    RelayDeliversTheLog(log, start, actions);
    AfterIsSuffix(r.log, r.cursor);
    AfterIsSuffix(r.log, start);
  }
}
