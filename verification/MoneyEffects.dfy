/** Purchases, top-ups and refunds told from the columns: when they go through and which rows they write. */
module MoneyEffects {
  import opened Wrappers
  import opened Store
  import opened Runs
  import Wallet
  import Tickets
  import Expiry
  import Sync
  import Validation

  const HOUR_MS := 3600000

  /** No ledger row has the key. */
  predicate KeyIsFree(ledger: seq<Entry>, key: Key) {
    forall i | 0 <= i < |ledger| :: ledger[i].key != Some(key)
  }

  /**
   A purchase goes through iff there is a wallet that holds the fare, the key is free and the ticket id is
   new.  The wallet pays exactly the fare, the ticket is ACTIVE for one hour, and one COMPLETED row says so.
   */
  lemma {:induction false} PurchaseEffect(db: Db, u: UserId, fare: int, t: TicketId, key: Key, now: int)
    ensures var r := Tickets.Purchased(db, u, fare, t, key, now);
            && (r.Success? <==>
                  u in db.balances && db.balances[u] >= fare && KeyIsFree(db.ledger, key) && t !in db.tickets)
            && (r.Success? ==>
                  && r.value.tickets == db.tickets[t := Ticket(u, fare, now, now + HOUR_MS, Active, None, None)]
                  && r.value.balances == db.balances[u := db.balances[u] - fare]
                  && r.value.ledger == db.ledger
                     + [Entry(u, TicketPurchase, Completed, fare, Some(db.balances[u] - fare), Some(t), None, Some(key))]
                  && r.value.events == db.events)
  {
  }

  /** Why a purchase fails, in the order of the checks. */
  lemma {:induction false} PurchaseRefusal(db: Db, u: UserId, fare: int, t: TicketId, key: Key, now: int)
    ensures var r := Tickets.Purchased(db, u, fare, t, key, now);
            && (r == Failure(WalletNotFound) <==> u !in db.balances)
            && (r == Failure(InsufficientBalance) <==> u in db.balances && db.balances[u] < fare)
            && (r == Failure(DuplicateKey) <==>
                  u in db.balances && db.balances[u] >= fare && !KeyIsFree(db.ledger, key))
  {
  }

  /** A top-up is accepted iff the key is free, the amount is from 10 to 10000 and there is a wallet. */
  lemma {:induction false} TopupEffect(db: Db, u: UserId, amount: int, ref: Ref, key: Key)
    ensures var r := Wallet.TopupInitiated(db, u, amount, ref, key);
            && (r.Success? <==> KeyIsFree(db.ledger, key) && 10 <= amount <= 10000 && u in db.balances)
            && (r == Failure(DuplicateKey) <==> !KeyIsFree(db.ledger, key))
            && (r == Failure(AmountOutOfRange) <==> KeyIsFree(db.ledger, key) && !(10 <= amount <= 10000))
            && (r.Success? ==>
                  r.value == db.(ledger := db.ledger + [Entry(u, Topup, Pending, amount, None, None, Some(ref), Some(key))]))
  {
  }

  /** A refund pays the fare back to the ticket's passenger and writes one COMPLETED row. */
  lemma {:induction false} RefundEffect(db: Db, t: TicketId, now: int)
    requires t in db.tickets && db.tickets[t].passenger in db.balances
    ensures var row, after := db.tickets[t], Expiry.ExpireOne(db, t, now);
            && after.tickets == db.tickets[t := row.(status := Refunded, refundedAt := Some(now))]
            && after.balances == db.balances[row.passenger := db.balances[row.passenger] + row.fare]
            && after.ledger == db.ledger
               + [Entry(row.passenger, EntryType.Refund, Completed, row.fare,
                        Some(db.balances[row.passenger] + row.fare), Some(t), None, None)]
            && after.events == db.events
  {
  }

  // ---- Over runs ----

  /** Every step of a run is the operation that it names. */
  lemma {:induction false} StepsTakeEffect(db: Db, qr: Sync.Qr)
    ensures forall u :: Step(db, qr, Register(u)) == if u in db.balances then db else db.(balances := db.balances[u := 0])
    ensures forall u, amount, ref, key ::
      Step(db, qr, InitiateTopup(u, amount, ref, key)) == OrSame(db, Wallet.TopupInitiated(db, u, amount, ref, key))
    ensures forall row: nat, success | row < |db.ledger| && db.ledger[row].kind == Topup ::
      Step(db, qr, Webhook(row, success)) == Wallet.Settled(db, row, success)
    ensures forall u, fare, t, key, now | fare > 0 ::
      Step(db, qr, Purchase(u, fare, t, key, now)) == OrSame(db, Tickets.Purchased(db, u, fare, t, key, now))
    ensures forall r: Validation.Request, trip | r.scannedAt <= r.checkedAt ::
      Step(db, qr, Validate(r, trip, false)) == Validation.Validated(db, qr, r, trip).after
    ensures forall d :: Step(db, qr, SyncScan(d)) == Sync.Deliver(db, d)
    ensures forall t, now :: Step(db, qr, ExpireTicket(t, now)) == Expiry.ExpireOne(db, t, now)
  {
  }


  predicate LastAnHour(db: Db) {
    forall t | t in db.tickets :: db.tickets[t].expiresAt - db.tickets[t].purchasedAt == HOUR_MS
  }

  lemma {:induction false} StepKeepsHours(db: Db, qr: Sync.Qr, a: Action)
    requires LastAnHour(db)
    ensures LastAnHour(Step(db, qr, a))
  {
    if a.Validate? {
      ValidatedRows(db, qr, a.request, a.trip);
    }
  }

  /** In every run each ticket expires one hour after it was bought. */
  lemma {:induction false} TicketsLastAnHour(qr: Sync.Qr, run: seq<Action>)
    ensures LastAnHour(Run(qr, run))
  {
    if run != [] {
      TicketsLastAnHour(qr, run[..|run| - 1]);
      StepKeepsHours(Run(qr, run[..|run| - 1]), qr, run[|run| - 1]);
    }
  }

  /** A ticket keeps its passenger, its fare, the time at which it was bought and its expiry. */
  predicate SameTicket(a: Ticket, b: Ticket) {
    a == b.(status := a.status, usedAt := a.usedAt, refundedAt := a.refundedAt)
  }

  lemma {:induction false} StepKeepsTicket(db: Db, qr: Sync.Qr, a: Action, t: TicketId)
    requires t in db.tickets
    ensures t in Step(db, qr, a).tickets && SameTicket(Step(db, qr, a).tickets[t], db.tickets[t])
  {
    if a.Validate? {
      ValidatedRows(db, qr, a.request, a.trip);
    }
  }

  /** From its purchase on, whatever happens, a ticket is the one that was bought. */
  lemma {:induction false} BoughtTicketStays(
    db: Db, qr: Sync.Qr, u: UserId, fare: int, t: TicketId, key: Key, now: int, run: seq<Action>)
    requires Tickets.Purchased(db, u, fare, t, key, now).Success?
    ensures var after := Continue(Tickets.Purchased(db, u, fare, t, key, now).value, qr, run);
            && t in after.tickets
            && after.tickets[t].passenger == u && after.tickets[t].fare == fare
            && after.tickets[t].purchasedAt == now && after.tickets[t].expiresAt == now + HOUR_MS
  {
    if run != [] {
      BoughtTicketStays(db, qr, u, fare, t, key, now, run[..|run| - 1]);
      var mid := Continue(Tickets.Purchased(db, u, fare, t, key, now).value, qr, run[..|run| - 1]);
      StepKeepsTicket(mid, qr, run[|run| - 1], t);
    }
  }
}
