/**
 The wallet service: debits, credits, top-ups and payment callbacks.

 Each operation is given twice: as a function from one state of the tables to the next, about which
 the run theorems speak, and as a method on the store, proved to compute that function.
 */
module Wallet {
  import opened Wrappers
  import opened Store

  const MIN_TOPUP := 10
  const MAX_TOPUP := 10000

  predicate KeyUsed(ledger: seq<Entry>, key: Key) {
    exists i | 0 <= i < |ledger| :: ledger[i].key == Some(key)
  }

  /** Move the balance of `e.owner` by `e` and append `e` to the ledger, already COMPLETED. */
  function Post(db: Db, e: Entry): Db
    requires e.owner in db.balances
  {
    db.(balances := db.balances[e.owner := db.balances[e.owner] + Signed(e)],
        ledger := db.ledger + [e],
        completed := db.completed + [|db.ledger|])
  }

  function PurchaseEntry(db: Db, u: UserId, amount: int, t: TicketId, key: Key): Entry
    requires u in db.balances
  {
    Entry(u, TicketPurchase, Completed, amount, Some(db.balances[u] - amount), Some(t), None, Some(key))
  }

  function RefundEntry(db: Db, u: UserId, amount: int, t: TicketId): Entry
    requires u in db.balances
  {
    Entry(u, Refund, Completed, amount, Some(db.balances[u] + amount), Some(t), None, None)
  }

  function Debited(db: Db, u: UserId, amount: int, t: TicketId, key: Key): Result<Db, Error> {
    if u !in db.balances then Failure(WalletNotFound)
    else if db.balances[u] < amount then Failure(InsufficientBalance)
    else if KeyUsed(db.ledger, key) then Failure(DuplicateKey)
    else Success(Post(db, PurchaseEntry(db, u, amount, t, key)))
  }

  /** The balance as a debit writes it before it inserts the ledger row. */
  function Paid(db: Db, u: UserId, amount: int): Db {
    if u in db.balances then db.(balances := db.balances[u := db.balances[u] - amount]) else db
  }

  function Credited(db: Db, u: UserId, amount: int, t: TicketId): Result<Db, Error> {
    if u !in db.balances then Failure(WalletNotFound)
    else Success(Post(db, RefundEntry(db, u, amount, t)))
  }

  function TopupRow(u: UserId, amount: int, ref: Ref, key: Key): Entry {
    Entry(u, Topup, Pending, amount, None, None, Some(ref), Some(key))
  }

  function TopupInitiated(db: Db, u: UserId, amount: int, ref: Ref, key: Key): Result<Db, Error> {
    if KeyUsed(db.ledger, key) then Failure(DuplicateKey)
    else if amount < MIN_TOPUP || amount > MAX_TOPUP then Failure(AmountOutOfRange)
    else if u !in db.balances then Failure(WalletNotFound)
    else Success(db.(ledger := db.ledger + [TopupRow(u, amount, ref, key)]))
  }

  predicate IsTopup(ledger: seq<Entry>, i: nat, ref: Ref) {
    i < |ledger| && ledger[i].kind == Topup && ledger[i].externalRef == Some(ref)
  }

  /** A payment callback that was matched to ledger row `i`. */
  function Settled(db: Db, i: nat, success: bool): Db
    requires i < |db.ledger|
  {
    var e := db.ledger[i];
    if e.status == Completed then db
    else if !success then db.(ledger := db.ledger[i := e.(status := Failed)])
    else if e.owner !in db.balances then db
    else
      var balance := db.balances[e.owner] + e.amount;
      db.(balances := db.balances[e.owner := balance],
          ledger := db.ledger[i := e.(status := Completed, balanceAfter := Some(balance))],
          completed := db.completed + [i])
  }

  // ---- The service ----

  method FindKey(db: Database, key: Key) returns (found: bool)
    ensures found == KeyUsed(db.ledger, key)
  {
    found := false;
    for i := 0 to |db.ledger|
      invariant found == exists j | 0 <= j < i :: db.ledger[j].key == Some(key)
    {
      if db.ledger[i].key == Some(key) {
        found := true;
      }
    }
  }

  /**
   Runs inside the caller's transaction.  When the unique index on the idempotency key rejects the
   new row, the balance has already been written: undoing that is the caller's rollback.
   */
  method Debit(db: Database, u: UserId, amount: int, t: TicketId, key: Key) returns (r: Result<(), Error>)
    modifies db
    ensures var want := Debited(old(db.Rows()), u, amount, t, key);
            && (want.Success? ==> r.Success? && db.Rows() == want.value)
            && (want.Failure? ==> r == Failure(want.error))
            && (want.Failure? ==>
                  db.Rows() == if want.error != DuplicateKey then old(db.Rows())
                               else Paid(old(db.Rows()), u, amount))
    ensures db.trips == old(db.trips)
  {
    if u !in db.balances {
      return Failure(WalletNotFound);
    }
    if db.balances[u] < amount {
      return Failure(InsufficientBalance);
    }
    var newBalance := db.balances[u] - amount;
    db.balances := db.balances[u := newBalance];
    var duplicate := FindKey(db, key);
    if duplicate {
      return Failure(DuplicateKey);
    }
    db.InsertCompleted(
      Entry(u, TicketPurchase, Completed, amount, Some(newBalance), Some(t), None, Some(key)));
    r := Success(());
  }

  /** Runs inside the caller's transaction. */
  method Credit(db: Database, u: UserId, amount: int, t: TicketId) returns (r: Result<(), Error>)
    modifies db
    ensures var want := Credited(old(db.Rows()), u, amount, t);
            && (want.Success? ==> r.Success? && db.Rows() == want.value)
            && (want.Failure? ==> r == Failure(want.error) && db.Rows() == old(db.Rows()))
    ensures db.trips == old(db.trips)
  {
    if u !in db.balances {
      return Failure(WalletNotFound);
    }
    var newBalance := db.balances[u] + amount;
    db.balances := db.balances[u := newBalance];
    db.InsertCompleted(
      Entry(u, Refund, Completed, amount, Some(newBalance), Some(t), None, None));
    r := Success(());
  }

  /** `ref` is the reference that the payment provider returned for this request. */
  method InitiateTopup(db: Database, u: UserId, amount: int, ref: Ref, key: Key)
    returns (r: Result<(), Error>)
    modifies db
    ensures var want := TopupInitiated(old(db.Rows()), u, amount, ref, key);
            && (want.Success? ==> r.Success? && db.Rows() == want.value)
            && (want.Failure? ==> r == Failure(want.error) && db.Rows() == old(db.Rows()))
    ensures db.trips == old(db.trips)
  {
    var existing := FindKey(db, key);
    if existing {
      return Failure(DuplicateKey);
    }
    if amount < MIN_TOPUP || amount > MAX_TOPUP {
      return Failure(AmountOutOfRange);
    }
    if u !in db.balances {
      return Failure(WalletNotFound);
    }
    db.ledger := db.ledger + [TopupRow(u, amount, ref, key)];
    r := Success(());
  }

  datatype Payload = Payload(ref: Option<Ref>, status: string)

  /** The payment provider's signature check and the decoding of the callback body. */
  datatype Provider = Provider(
    verify: (string, string) -> bool,
    parse: string -> Option<Payload>)

  predicate Succeeds(status: string) {
    status == "success" || status == "completed"
  }

  predicate Authentic(provider: Provider, body: string, signature: Option<string>) {
    signature.Some? && provider.verify(body, signature.value)
  }

  /** What a callback matched to row `i` reports: crediting a wallet that is gone is the one failure. */
  function Answer(db: Db, i: nat, success: bool): Result<(), Error>
    requires i < |db.ledger|
  {
    var e := db.ledger[i];
    if e.status != Completed && success && e.owner !in db.balances then Failure(WalletNotFound) else Success(())
  }

  /** The row lookup has no order, so any matching row may be returned. */
  method FindTopup(db: Database, ref: Ref) returns (found: Option<nat>)
    ensures found.Some? ==> IsTopup(db.ledger, found.value, ref)
    ensures found.None? ==> forall i: nat :: !IsTopup(db.ledger, i, ref)
  {
    found := None;
    for i := 0 to |db.ledger|
      invariant found.Some? ==> IsTopup(db.ledger, found.value, ref)
      invariant found.None? ==> forall j: nat :: j < i ==> !IsTopup(db.ledger, j, ref)
    {
      if db.ledger[i].kind == Topup && db.ledger[i].externalRef == Some(ref) {
        found := Some(i);
      }
    }
  }

  /** What one callback does: `row` is the ledger row, if any, that it was matched to. */
  ghost predicate Handled(
    db: Db, provider: Provider, body: string, signature: Option<string>, row: Option<nat>, after: Db,
    r: Result<(), Error>)
  {
    if !Authentic(provider, body, signature) then after == db && row.None? && r == Failure(BadSignature)
    else
      match provider.parse(body)
      case None => after == db && row.None? && r == Failure(MalformedPayload)
      case Some(payload) =>
        if payload.ref.None? || forall i: nat :: !IsTopup(db.ledger, i, payload.ref.value) then
          after == db && row.None? && r.Success?
        else
          var paid := payload.status == "success" || payload.status == "completed";
          && row.Some? && IsTopup(db.ledger, row.value, payload.ref.value)
          && after == Settled(db, row.value, paid)
          && r == Answer(db, row.value, paid)
  }

  /** `row` reports which ledger row, if any, an authentic callback was matched to. */
  method ProcessWebhook(db: Database, provider: Provider, body: string, signature: Option<string>)
    returns (r: Result<(), Error>, ghost row: Option<nat>)
    modifies db
    ensures db.trips == old(db.trips)
    ensures Handled(old(db.Rows()), provider, body, signature, row, db.Rows(), r)
  {
    row := None;
    if signature.None? || !provider.verify(body, signature.value) {
      return Failure(BadSignature), None;
    }
    var payload := provider.parse(body);
    if payload.None? {
      return Failure(MalformedPayload), None;
    }
    var Payload(ref, status) := payload.value;
    if ref.None? {
      return Success(()), None;
    }
    var txn := FindTopup(db, ref.value);
    if txn.None? {
      return Success(()), None;
    }
    var i := txn.value;
    row := txn;
    var e := db.ledger[i];
    if e.status == Completed {
      return Success(()), row;
    }
    if Succeeds(status) {
      if e.owner !in db.balances {
        return Failure(WalletNotFound), row;
      }
      var newBalance := db.balances[e.owner] + e.amount;
      db.balances := db.balances[e.owner := newBalance];
      db.ledger := db.ledger[i := e.(status := Completed, balanceAfter := Some(newBalance))];
      db.completed := db.completed + [i];
      return Success(()), row;
    }
    db.ledger := db.ledger[i := e.(status := Failed)];
    r := Success(());
  }
}
