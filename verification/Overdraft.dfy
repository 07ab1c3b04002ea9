/**
 The schema calls balances "never negative".  A refund that is taken back after it was spent makes one
 negative; these are the only steps that do.
 */
module Overdraft {
  import opened Wrappers
  import opened Store
  import opened Steps
  import opened Runs
  import opened Books
  import Wallet
  import Tickets
  import Sync
  import Expiry
  import Convergence

  /** A fresh boarding scan of a refunded ticket whose passenger no longer has the fare. */
  predicate TakesBackSpentRefund(db: Db, a: Action) {
    && a.SyncScan?
    && var p := a.delivery.scan;
       && p.ticket in db.tickets && !Sync.Logged(db.events, p)
       && var row := db.tickets[p.ticket];
          && row.status == Refunded && !p.isInspection && p.scannedAt <= row.expiresAt
          && row.passenger in db.balances && db.balances[row.passenger] < row.fare
  }

  lemma {:induction false} DeliveryNonNegative(db: Db, qr: Sync.Qr, a: Action)
    requires Ticketed(db, false) && NonNegative(db) && a.SyncScan?
    ensures NonNegative(Step(db, qr, a)) <==> !TakesBackSpentRefund(db, a)
  {
    var t, after := a.delivery.scan.ticket, Sync.Deliver(db, a.delivery);
    Convergence.DeliverEffect(db, a.delivery);
    assert Step(db, qr, a) == after;
    if TakesBackSpentRefund(db, a) {
      assert after.balances[db.tickets[t].passenger] < 0;
    }
  }

  /** The balances that the steps other than offline scans leave. */
  lemma {:induction false} OtherStepNonNegative(db: Db, qr: Sync.Qr, a: Action)
    requires WellKept(db) && Ticketed(db, false) && NonNegative(db) && !a.SyncScan?
    ensures NonNegative(Step(db, qr, a))
  {
    if Legal(db, a) {
      match a
      case Webhook(row, success) => SettledNonNegative(db, row, success);
      case Purchase(u, fare, t, key, now) => PurchasedNonNegative(db, u, fare, t, key, now);
      case Validate(r, trip, _) => ValidatedRows(db, qr, r, trip);
      case ExpireTicket(t, now) =>
        if t in db.tickets {
          ExpiredNonNegative(db, t, now);
        }
      case _ =>
    }
  }

  /** Balances stay non-negative in a step exactly when it does not take back a spent refund. */
  lemma {:induction false} StaysNonNegativeIff(db: Db, qr: Sync.Qr, a: Action)
    requires WellKept(db) && Ticketed(db, false) && NonNegative(db)
    ensures NonNegative(Step(db, qr, a)) <==> !TakesBackSpentRefund(db, a)
  {
    if a.SyncScan? {
      DeliveryNonNegative(db, qr, a);
    } else {
      OtherStepNonNegative(db, qr, a);
    }
  }

  // ---- A reachable overdrawn wallet ----

  const LATE := Tickets.TICKET_EXPIRY_MS + 1

  function ToppedUp(u: UserId, ref: Ref, key: Key): seq<Action> {
    [Register(u), InitiateTopup(u, 100, ref, key), Webhook(0, true)]
  }

  lemma {:induction false} AfterTopup(qr: Sync.Qr, u: UserId, ref: Ref, key: Key)
    ensures var db := Run(qr, ToppedUp(u, ref, key));
            && db.balances == map[u := 100] && db.tickets == map[] && db.events == []
            && |db.ledger| == 1 && db.ledger[0].key == Some(key)
  {
    ContinuePush(EMPTY, qr, [], Register(u));
    assert [] + [Register(u)] == [Register(u)];
    assert Run(qr, [Register(u)]) == EMPTY.(balances := map[u := 0]);
    ContinuePush(EMPTY, qr, [Register(u)], InitiateTopup(u, 100, ref, key));
    assert [Register(u)] + [InitiateTopup(u, 100, ref, key)] == [Register(u), InitiateTopup(u, 100, ref, key)];
    var mid := Run(qr, [Register(u), InitiateTopup(u, 100, ref, key)]);
    assert mid.ledger == [Wallet.TopupRow(u, 100, ref, key)];
    ContinuePush(EMPTY, qr, [Register(u), InitiateTopup(u, 100, ref, key)], Webhook(0, true));
    assert [Register(u), InitiateTopup(u, 100, ref, key)] + [Webhook(0, true)] == ToppedUp(u, ref, key);
  }

  lemma {:induction false} Buys(db: Db, qr: Sync.Qr, u: UserId, t: TicketId, key: Key, now: int)
    requires db.balances == map[u := 100] && t !in db.tickets && !Wallet.KeyUsed(db.ledger, key)
    ensures var after := Step(db, qr, Purchase(u, 100, t, key, now));
            && after.balances == map[u := 0] && after.events == db.events
            && after.tickets == db.tickets[t := Tickets.NewTicket(u, 100, now)]
            && |after.ledger| == |db.ledger| + 1 && after.ledger[..|db.ledger|] == db.ledger
            && after.ledger[|db.ledger|].key == Some(key)
  {
  }

  lemma {:induction false} IsRefunded(db: Db, qr: Sync.Qr, u: UserId, t: TicketId)
    requires db.balances == map[u := 0] && t in db.tickets && db.tickets[t] == Tickets.NewTicket(u, 100, 0)
    ensures var after := Step(db, qr, ExpireTicket(t, LATE));
            && after.balances == map[u := 100] && after.events == db.events
            && after.tickets == db.tickets[t := Expiry.AsRefunded(db.tickets[t], LATE)]
            && |after.ledger| == |db.ledger| + 1 && after.ledger[..|db.ledger|] == db.ledger
            && after.ledger[|db.ledger|].key == None
  {
  }

  lemma {:induction false} IsTakenBack(db: Db, qr: Sync.Qr, u: UserId, driver: UserId, t: TicketId)
    requires db.balances == map[u := 0] && db.events == []
    requires t in db.tickets && db.tickets[t] == Expiry.AsRefunded(Tickets.NewTicket(u, 100, 0), LATE)
    ensures Step(db, qr, SyncScan(Sync.Delivery(Sync.Presented(t, driver, 10, false), LATE, None, false))).balances
         == map[u := -100]
  {
    Convergence.DeliverEffect(db, Sync.Delivery(Sync.Presented(t, driver, 10, false), LATE, None, false));
  }

  /** Buy a ticket, have it refunded, spend the refund, and let the boarding scan arrive. */
  lemma {:induction false} BalanceCanBeNegative(
    qr: Sync.Qr, u: UserId, driver: UserId, t: TicketId, other: TicketId, k: Key, k': Key, k'': Key, ref: Ref)
    requires t != other && k != k' && k != k'' && k' != k''
    ensures Run(qr, ToppedUp(u, ref, k)
                    + [Purchase(u, 100, t, k', 0)]
                    + [ExpireTicket(t, LATE)]
                    + [Purchase(u, 100, other, k'', LATE)]
                    + [SyncScan(Sync.Delivery(Sync.Presented(t, driver, 10, false), LATE, None, false))]).balances
         == map[u := -100]
  {
    var r0 := ToppedUp(u, ref, k);
    var r1 := r0 + [Purchase(u, 100, t, k', 0)];
    var r2 := r1 + [ExpireTicket(t, LATE)];
    var r3 := r2 + [Purchase(u, 100, other, k'', LATE)];
    AfterTopup(qr, u, ref, k);
    ContinuePush(EMPTY, qr, r0, Purchase(u, 100, t, k', 0));
    Buys(Run(qr, r0), qr, u, t, k', 0);
    ContinuePush(EMPTY, qr, r1, ExpireTicket(t, LATE));
    IsRefunded(Run(qr, r1), qr, u, t);
    ContinuePush(EMPTY, qr, r2, Purchase(u, 100, other, k'', LATE));
    Buys(Run(qr, r2), qr, u, other, k'', LATE);
    ContinuePush(EMPTY, qr, r3, SyncScan(Sync.Delivery(Sync.Presented(t, driver, 10, false), LATE, None, false)));
    IsTakenBack(Run(qr, r3), qr, u, driver, t);
  }
}
