/**
 The points ledger as a value: accounts, transactions and the idempotency-key index,
 with the one mutation that credits, charges and refunds.
 */
module Billing {
  import opened Basics

  type UserId = string
  type JobId = string
  type Breakdown = map<string, int>

  /** Transaction ids as the billing adapter builds them; other clients bring their own. */
  datatype TxnId = ChargeTxn(job: JobId) | RefundTxn(job: JobId) | NamedTxn(name: string)

  /** Idempotency keys as the finalizer builds them; other clients bring their own. */
  datatype Key = ChargeKey(job: JobId) | RefundKey(job: JobId, charge: TxnId) | NamedKey(name: string)

  datatype Kind = Credit | Charge | Refund

  datatype Account = Account(balance: int, version: int)

  datatype Txn = Txn(
    user: UserId, kind: Kind, key: Key, reference: Option<TxnId>,
    operation: string, batch: string, job: JobId,
    points: int, delta: int, balanceAfter: int, breakdown: Breakdown)

  datatype Request = Request(
    txn: TxnId, user: UserId, key: Key, reference: Option<TxnId>,
    operation: string, batch: string, job: JobId, points: int, breakdown: Breakdown)

  datatype Error =
    | InvalidRequest | AccountNotFound | TransactionNotFound
    | IdempotencyConflict | InsufficientPoints | RefundExceedsCharge

  datatype Ledger = Ledger(accounts: map<UserId, Account>, txns: map<TxnId, Txn>, byKey: map<Key, TxnId>)

  /** What a mutation answers: the transaction that now carries the key, and whether it was already there. */
  datatype Receipt = Receipt(id: TxnId, txn: Txn, duplicate: bool)

  predicate ValidRequest(r: Request, kind: Kind) {
    && r.txn != NamedTxn("") && r.user != "" && r.key != NamedKey("")
    && r.points > 0
    && (kind == Refund ==> r.reference.Some?)
  }

  /** A key is bound to the monetary content of the request that first claimed it. */
  predicate SameMutation(t: Txn, kind: Kind, r: Request) {
    && t.kind == kind && t.user == r.user && t.points == r.points && t.reference == r.reference
    && t.operation == r.operation && t.batch == r.batch && t.job == r.job && t.breakdown == r.breakdown
  }

  function Delta(kind: Kind, points: int): int {
    if kind == Charge then -points else points
  }

  /** The refunds booked against charge `c`. */
  ghost function RefundsOf(txns: map<TxnId, Txn>, c: TxnId): map<TxnId, int> {
    map t | t in txns && txns[t].kind == Refund && txns[t].reference == Some(c) :: txns[t].points
  }

  ghost function Refunded(txns: map<TxnId, Txn>, c: TxnId): int {
    SumValues(RefundsOf(txns, c))
  }

  ghost function EnsureAccount(l: Ledger, user: UserId, initial: int): Result<Ledger, Error> {
    if user == "" || initial < 0 then Err(InvalidRequest)
    else if user in l.accounts then Ok(l)
    else Ok(l.(accounts := l.accounts[user := Account(initial, 1)]))
  }

  ghost function RefundProblem(l: Ledger, r: Request): Option<Error>
    requires r.reference.Some?
  {
    var c := r.reference.value;
    if c !in l.txns || l.txns[c].kind != Charge || l.txns[c].user != r.user then Some(TransactionNotFound)
    else if Refunded(l.txns, c) + r.points > l.txns[c].points then Some(RefundExceedsCharge)
    else None
  }

  function Entry(r: Request, kind: Kind, balance: int): Txn {
    Txn(r.user, kind, r.key, r.reference, r.operation, r.batch, r.job,
        r.points, Delta(kind, r.points), balance, r.breakdown)
  }

  /** The new transaction, once every check has passed. */
  function Book(l: Ledger, r: Request, kind: Kind): (Ledger, Receipt)
    requires r.user in l.accounts
  {
    var account := l.accounts[r.user];
    var balance := account.balance + Delta(kind, r.points);
    var txn := Entry(r, kind, balance);
    (Ledger(l.accounts[r.user := Account(balance, account.version + 1)],
            l.txns[r.txn := txn], l.byKey[r.key := r.txn]),
     Receipt(r.txn, txn, false))
  }

  /** Credit, charge or refund. A failed or replayed request changes nothing. */
  ghost function Mutate(l: Ledger, r: Request, kind: Kind): (Ledger, Result<Receipt, Error>) {
    if !ValidRequest(r, kind) then (l, Err(InvalidRequest))
    else if r.key in l.byKey then
      if l.byKey[r.key] in l.txns && SameMutation(l.txns[l.byKey[r.key]], kind, r)
      then (l, Ok(Receipt(l.byKey[r.key], l.txns[l.byKey[r.key]], true)))
      else (l, Err(IdempotencyConflict))
    else if r.user !in l.accounts then (l, Err(AccountNotFound))
    else if kind == Charge && l.accounts[r.user].balance < r.points then (l, Err(InsufficientPoints))
    else if kind == Refund && RefundProblem(l, r).Some? then (l, Err(RefundProblem(l, r).value))
    else
      var (l', receipt) := Book(l, r, kind);
      (l', Ok(receipt))
  }

  /** The request books a new transaction, rather than failing or replaying. */
  ghost predicate Books(l: Ledger, r: Request, kind: Kind) {
    var (_, result) := Mutate(l, r, kind);
    result.Ok? && !result.value.duplicate
  }
}

/** Conservation of points along every run of the ledger. */
module LedgerConservation {
  import opened Basics
  import opened Billing

  /** The movements of one account. */
  ghost function DeltasOf(txns: map<TxnId, Txn>, user: UserId): map<TxnId, int> {
    map t | t in txns && txns[t].user == user :: txns[t].delta
  }

  ghost predicate IndexInv(l: Ledger) {
    && (forall k :: k in l.byKey ==> l.byKey[k] in l.txns && l.txns[l.byKey[k]].key == k)
    && (forall t :: t in l.txns ==> l.txns[t].key in l.byKey && l.byKey[l.txns[t].key] == t)
  }

  ghost predicate EntryInv(l: Ledger, t: TxnId)
    requires t in l.txns
  {
    var x := l.txns[t];
    && x.points > 0 && x.delta == Delta(x.kind, x.points) && x.user in l.accounts
    && (x.kind == Refund ==>
          x.reference.Some? && x.reference.value in l.txns
          && l.txns[x.reference.value].kind == Charge && l.txns[x.reference.value].user == x.user)
    && (x.kind == Charge ==> Refunded(l.txns, t) <= x.points)
  }

  ghost predicate AccountInv(l: Ledger, opening: map<UserId, int>, u: UserId)
    requires u in l.accounts && u in opening
  {
    && l.accounts[u].balance == opening[u] + SumValues(DeltasOf(l.txns, u))
    && l.accounts[u].balance >= 0
    && l.accounts[u].version == 1 + |DeltasOf(l.txns, u)|
  }

  /** What every run keeps; `opening` holds the balance each account was opened with. */
  ghost predicate Conserved(l: Ledger, opening: map<UserId, int>) {
    && l.accounts.Keys == opening.Keys
    && IndexInv(l)
    && (forall t :: t in l.txns ==> EntryInv(l, t))
    && (forall u :: u in l.accounts ==> AccountInv(l, opening, u))
  }

  /** The checks that let a request through to the books. */
  ghost predicate CanBook(l: Ledger, r: Request, kind: Kind) {
    && r.user in l.accounts && r.key !in l.byKey && r.txn !in l.txns && r.points > 0
    && (kind == Charge ==> l.accounts[r.user].balance >= r.points)
    && (kind == Refund ==> r.reference.Some? && RefundProblem(l, r).None?)
  }

  lemma DeltasAfterBook(l: Ledger, r: Request, kind: Kind, u: UserId)
    requires r.user in l.accounts && r.txn !in l.txns
    ensures DeltasOf(Book(l, r, kind).0.txns, u) ==
            if u == r.user then DeltasOf(l.txns, u)[r.txn := Delta(kind, r.points)] else DeltasOf(l.txns, u)
  {
  }

  lemma CountInsert<K, V>(m: map<K, V>, k: K, v: V)
    requires k !in m
    ensures |m[k := v]| == |m| + 1
  {
    assert m[k := v].Keys == m.Keys + {k};
  }

  lemma BookKeepsAccount(l: Ledger, opening: map<UserId, int>, r: Request, kind: Kind, u: UserId)
    requires u in l.accounts && u in opening && AccountInv(l, opening, u)
    requires CanBook(l, r, kind)
    ensures AccountInv(Book(l, r, kind).0, opening, u)
  {
    DeltasAfterBook(l, r, kind, u);
    if u == r.user {
      SumInsert(DeltasOf(l.txns, u), r.txn, Delta(kind, r.points));
      CountInsert(DeltasOf(l.txns, u), r.txn, Delta(kind, r.points));
    }
  }

  lemma RefundsAfterBook(l: Ledger, r: Request, kind: Kind, c: TxnId)
    requires r.user in l.accounts && r.txn !in l.txns
    ensures Refunded(Book(l, r, kind).0.txns, c) ==
            Refunded(l.txns, c) + (if kind == Refund && r.reference == Some(c) then r.points else 0)
  {
    var before, after := RefundsOf(l.txns, c), RefundsOf(Book(l, r, kind).0.txns, c);
    if kind == Refund && r.reference == Some(c) {
      assert after == before[r.txn := r.points];
      SumInsert(before, r.txn, r.points);
    } else {
      assert after == before;
    }
  }

  lemma NoRefundsOfUnknown(l: Ledger, c: TxnId)
    requires forall t :: t in l.txns ==> EntryInv(l, t)
    requires c !in l.txns
    ensures Refunded(l.txns, c) == 0
  {
    forall t | t in l.txns ensures t !in RefundsOf(l.txns, c) { assert EntryInv(l, t); }
    assert RefundsOf(l.txns, c) == map[];
  }

  lemma BookKeepsEntry(l: Ledger, r: Request, kind: Kind, t: TxnId)
    requires forall x :: x in l.txns ==> EntryInv(l, x)
    requires CanBook(l, r, kind)
    requires t in Book(l, r, kind).0.txns
    ensures EntryInv(Book(l, r, kind).0, t)
  {
    RefundsAfterBook(l, r, kind, t);
    if t == r.txn { NoRefundsOfUnknown(l, t); } else { assert EntryInv(l, t); }
  }

  lemma BookKeepsIndex(l: Ledger, r: Request, kind: Kind)
    requires IndexInv(l) && r.user in l.accounts && r.key !in l.byKey && r.txn !in l.txns
    ensures IndexInv(Book(l, r, kind).0)
  {
    var l' := Book(l, r, kind).0;
    forall t | t in l'.txns ensures l'.txns[t].key in l'.byKey && l'.byKey[l'.txns[t].key] == t {
      if t != r.txn { assert l.txns[t].key in l.byKey; }
    }
  }

  lemma BookKeepsEntries(l: Ledger, r: Request, kind: Kind)
    requires (forall t :: t in l.txns ==> EntryInv(l, t)) && CanBook(l, r, kind)
    ensures var l' := Book(l, r, kind).0; forall t :: t in l'.txns ==> EntryInv(l', t)
  {
    var l' := Book(l, r, kind).0;
    forall t | t in l'.txns ensures EntryInv(l', t) { BookKeepsEntry(l, r, kind, t); }
  }

  lemma BookKeepsAccounts(l: Ledger, opening: map<UserId, int>, r: Request, kind: Kind)
    requires l.accounts.Keys == opening.Keys && (forall u :: u in l.accounts ==> AccountInv(l, opening, u)) && CanBook(l, r, kind)
    ensures var l' := Book(l, r, kind).0; l'.accounts.Keys == opening.Keys && forall u :: u in l'.accounts ==> AccountInv(l', opening, u)
  {
    var l' := Book(l, r, kind).0;
    forall u | u in l'.accounts ensures AccountInv(l', opening, u) {
      assert AccountInv(l, opening, u);
      BookKeepsAccount(l, opening, r, kind, u);
    }
  }

  lemma BookConserves(l: Ledger, opening: map<UserId, int>, r: Request, kind: Kind)
    requires Conserved(l, opening) && CanBook(l, r, kind)
    ensures Conserved(Book(l, r, kind).0, opening)
  {
    BookKeepsIndex(l, r, kind);
    BookKeepsEntries(l, r, kind);
    BookKeepsAccounts(l, opening, r, kind);
  }

  /** One mutation with a fresh transaction id keeps the books balanced. */
  lemma MutateConserves(l: Ledger, opening: map<UserId, int>, r: Request, kind: Kind)
    requires Conserved(l, opening)
    requires Books(l, r, kind) ==> r.txn !in l.txns
    ensures Conserved(Mutate(l, r, kind).0, opening)
  {
    if Books(l, r, kind) {
      assert Mutate(l, r, kind).0 == Book(l, r, kind).0;
      BookConserves(l, opening, r, kind);
    } else {
      assert Mutate(l, r, kind).0 == l;
    }
  }

  /** Repeating a request that once succeeded answers the recorded transaction and changes nothing. */
  lemma ReplayChangesNothing(l: Ledger, r: Request, kind: Kind, later: Ledger)
    requires Mutate(l, r, kind).1.Ok?
    requires forall k :: k in Mutate(l, r, kind).0.byKey ==> k in later.byKey && later.byKey[k] == Mutate(l, r, kind).0.byKey[k]
    requires forall t :: t in Mutate(l, r, kind).0.txns ==> t in later.txns && later.txns[t] == Mutate(l, r, kind).0.txns[t]
    ensures Mutate(later, r, kind).0 == later
    ensures Mutate(later, r, kind).1.Ok?
    ensures Mutate(later, r, kind).1.value.duplicate
    ensures Mutate(later, r, kind).1.value.id == Mutate(l, r, kind).1.value.id
    ensures Mutate(later, r, kind).1.value.txn == Mutate(l, r, kind).1.value.txn
  {
    var l' := Mutate(l, r, kind).0;
    assert r.key in l'.byKey && l'.byKey[r.key] in l'.txns;
    assert SameMutation(l'.txns[l'.byKey[r.key]], kind, r);
  }

  datatype Action = Open(user: UserId, initial: int) | Move(request: Request, kind: Kind)

  ghost function Act(l: Ledger, a: Action): Ledger {
    match a
    case Open(user, initial) =>
      var result := EnsureAccount(l, user, initial);
      if result.Ok? then result.value else l
    case Move(request, kind) => Mutate(l, request, kind).0
  }

  const EMPTY := Ledger(map[], map[], map[])

  ghost function Run(actions: seq<Action>): Ledger {
    if actions == [] then EMPTY else Act(Run(actions[..|actions| - 1]), actions[|actions| - 1])
  }

  /** The first opening of an account counts. */
  function Opened(opening: map<UserId, int>, user: UserId, initial: int): map<UserId, int> {
    if user != "" && initial >= 0 && user !in opening then opening[user := initial] else opening
  }

  /** The balance each account was opened with in a run. */
  ghost function Openings(actions: seq<Action>): map<UserId, int> {
    if actions == [] then map[]
    else
      var before := Openings(actions[..|actions| - 1]);
      var a := actions[|actions| - 1];
      if a.Open? then Opened(before, a.user, a.initial) else before
  }

  lemma EntryKept(l: Ledger, l': Ledger, t: TxnId)
    requires l'.txns == l.txns && l.accounts.Keys <= l'.accounts.Keys && t in l.txns && EntryInv(l, t)
    ensures EntryInv(l', t)
  {
  }

  lemma NoMovesYet(l: Ledger, user: UserId)
    requires user !in l.accounts && forall t :: t in l.txns ==> EntryInv(l, t)
    ensures DeltasOf(l.txns, user) == map[]
  {
    forall t | t in l.txns ensures l.txns[t].user != user { assert EntryInv(l, t); }
  }

  lemma OpenConserves(l: Ledger, opening: map<UserId, int>, user: UserId, initial: int)
    requires Conserved(l, opening)
    ensures Conserved(Act(l, Open(user, initial)), Opened(opening, user, initial))
  {
    var l', opening' := Act(l, Open(user, initial)), Opened(opening, user, initial);
    if user != "" && initial >= 0 && user !in l.accounts {
      assert l' == l.(accounts := l.accounts[user := Account(initial, 1)]) && opening' == opening[user := initial];
      NoMovesYet(l, user);
      forall t | t in l'.txns ensures EntryInv(l', t) { EntryKept(l, l', t); }
      forall u | u in l'.accounts ensures AccountInv(l', opening', u) {
        if u != user { assert AccountInv(l, opening, u); }
      }
    } else {
      assert l' == l && opening' == opening;
    }
  }

  /** Transaction ids are fresh, as the primary key of the transactions table demands. */
  ghost predicate FreshIds(actions: seq<Action>) {
    forall i :: 0 <= i < |actions| && actions[i].Move? ==>
      Books(Run(actions[..i]), actions[i].request, actions[i].kind) ==> actions[i].request.txn !in Run(actions[..i]).txns
  }

  /** Every balance is its opening balance plus its movements and never negative; refunds never exceed their charge. */
  lemma {:induction false} RunConserves(actions: seq<Action>)
    requires FreshIds(actions)
    ensures Conserved(Run(actions), Openings(actions))
    decreases |actions|
  {
    if actions != [] {
      var prefix, a := actions[..|actions| - 1], actions[|actions| - 1];
      forall i | 0 <= i < |prefix| ensures prefix[..i] == actions[..i] && prefix[i] == actions[i] {}
      RunConserves(prefix);
      var l := Run(prefix);
      match a {
        case Move(request, kind) => MutateConserves(l, Openings(prefix), request, kind);
        case Open(user, initial) => OpenConserves(l, Openings(prefix), user, initial);
      }
    }
  }
}

/** The in-memory store: the same ledger, kept in maps that are updated in place. */
module BillingStore {
  import opened Basics
  import opened Billing

  method EqualBreakdown(left: Breakdown, right: Breakdown) returns (equal: bool)
    ensures equal <==> left == right
  {
    if |left| != |right| { return false; }
    var rest := left.Keys;
    while rest != {}
      invariant rest <= left.Keys
      invariant forall k :: k in left && k !in rest ==> k in right && right[k] == left[k]
      decreases |rest|
    {
      var k :| k in rest;
      if k !in right || right[k] != left[k] { return false; }
      rest := rest - {k};
    }
    SameSizeSubset(left.Keys, right.Keys);
    return true;
  }

  lemma SameSizeSubset<T>(a: set<T>, b: set<T>)
    requires a <= b && |a| == |b|
    ensures a == b
  {
    assert b == a + (b - a);
    assert |b - a| == 0;
  }

  class MemoryStore {
    var accounts: map<UserId, Account>
    var transactions: map<TxnId, Txn>
    var byKey: map<Key, TxnId>

    ghost function View(): Ledger
      reads this
    {
      Ledger(accounts, transactions, byKey)
    }

    constructor ()
      ensures View() == Ledger(map[], map[], map[])
    {
      accounts, transactions, byKey := map[], map[], map[];
    }

    method EnsureAccount(user: UserId, initial: int) returns (result: Result<Account, Error>)
      modifies this
      ensures result.Ok? <==> Billing.EnsureAccount(old(View()), user, initial).Ok?
      ensures result.Ok? ==> View() == Billing.EnsureAccount(old(View()), user, initial).value
      ensures result.Ok? ==> user in accounts && result.value == accounts[user]
      ensures result.Err? ==> View() == old(View())
    {
      if user == "" || initial < 0 { return Err(InvalidRequest); }
      if user in accounts { return Ok(accounts[user]); }
      accounts := accounts[user := Account(initial, 1)];
      return Ok(accounts[user]);
    }

    /** The summing loop over all transactions, in whatever order the map yields them. */
    method RefundedAgainst(c: TxnId) returns (total: int)
      ensures total == Refunded(transactions, c)
    {
      total := 0;
      var rest := transactions.Keys;
      ghost var seen: map<TxnId, int> := map[];
      while rest != {}
        invariant rest <= transactions.Keys
        invariant seen == map t | t in RefundsOf(transactions, c) && t !in rest :: RefundsOf(transactions, c)[t]
        invariant total == SumValues(seen)
        decreases |rest|
      {
        var t :| t in rest;
        if transactions[t].kind == Refund && transactions[t].reference == Some(c) {
          SumInsert(seen, t, transactions[t].points);
          seen := seen[t := transactions[t].points];
          total := total + transactions[t].points;
        }
        rest := rest - {t};
      }
      assert seen == RefundsOf(transactions, c);
    }

    /** `mutate`: replay check, account check, kind checks, then the three map updates. */
    method Mutate(r: Request, kind: Kind) returns (result: Result<Receipt, Error>)
      modifies this
      ensures (View(), result) == Billing.Mutate(old(View()), r, kind)
    {
      if !ValidRequest(r, kind) { return Err(InvalidRequest); }
      if r.key in byKey {
        var id := byKey[r.key];
        if id !in transactions { return Err(IdempotencyConflict); }
        var existing := transactions[id];
        var equal := EqualBreakdown(existing.breakdown, r.breakdown);
        if existing.kind != kind || existing.user != r.user || existing.points != r.points
           || existing.reference != r.reference || existing.operation != r.operation
           || existing.batch != r.batch || existing.job != r.job || !equal {
          return Err(IdempotencyConflict);
        }
        return Ok(Receipt(id, existing, true));
      }
      if r.user !in accounts { return Err(AccountNotFound); }
      var account := accounts[r.user];
      var delta := r.points;
      if kind == Charge {
        delta := -r.points;
        if account.balance < r.points { return Err(InsufficientPoints); }
      }
      if kind == Refund {
        var c := r.reference.value;
        if c !in transactions || transactions[c].kind != Charge || transactions[c].user != r.user {
          return Err(TransactionNotFound);
        }
        var refunded := RefundedAgainst(c);
        if refunded + r.points > transactions[c].points { return Err(RefundExceedsCharge); }
      }
      account := Account(account.balance + delta, account.version + 1);
      var txn := Entry(r, kind, account.balance);
      accounts := accounts[r.user := account];
      transactions := transactions[r.txn := txn];
      byKey := byKey[r.key := r.txn];
      return Ok(Receipt(r.txn, txn, false));
    }
  }
}
