/**
 What each single write of the system does to the books and to the fit of ticket rows and ledger rows.
 The writes are taken as they come: a refund by id, or the ticket write of an offline scan, may meet a
 ticket that is no longer in the status in which it was read.
 */
module Steps {
  import opened Wrappers
  import opened Store
  import opened Totals
  import opened Books
  import Wallet
  import Tickets
  import Sync
  import Expiry
  import Confluence

  // ---- Tickets and their ledger rows ----

  /**
   What a ticket row looks like between transactions.  As long as all refunds were in time (`timely`),
   a recorded use and the status USED also imply one another.
   */
  ghost predicate ProperRow(row: Ticket, balances: map<UserId, int>, timely: bool) {
    && row.passenger in balances
    && row.fare > 0
    && row.status != Expired
    && (row.status == Used ==> row.usedAt.Some?)
    && (row.status == Active ==> row.usedAt.None?)
    && (row.status == Refunded <==> row.refundedAt.Some?)
    && (row.usedAt.Some? ==> row.usedAt.value <= row.expiresAt)
    && (timely && row.usedAt.Some? ==> row.status == Used)
  }

  function Purchased(row: Ticket): Line {
    Line(TicketPurchase, row.passenger, row.fare)
  }

  /** The ledger rows that a ticket in each status may have. */
  ghost predicate TrailFits(row: Ticket, trail: seq<Line>, timely: bool) {
    match row.status
    case Active => trail == [Purchased(row)]
    case Refunded => timely ==> trail == [Purchased(row), Confluence.RefundOf(row)]
    case Used => timely ==>
      || trail == [Purchased(row)]
      || trail == [Purchased(row), Confluence.RefundOf(row), Confluence.ReversalOf(row)]
    case Expired => false
  }

  ghost predicate Ticketed(db: Db, timely: bool) {
    && (forall t | t in db.tickets ::
          && ProperRow(db.tickets[t], db.balances, timely)
          && TrailFits(db.tickets[t], Trail(db.ledger, Some(t)), timely))
    && forall t | t !in db.tickets :: Trail(db.ledger, Some(t)) == []
  }

  /** What the books need to know about tickets: somebody with a wallet has paid for each. */
  predicate Funded(db: Db) {
    forall t | t in db.tickets :: db.tickets[t].passenger in db.balances && db.tickets[t].fare > 0
  }

  lemma {:induction false} Weaken(db: Db, timely: bool)
    requires Ticketed(db, timely)
    ensures Ticketed(db, false) && Funded(db)
  {
  }

  /** A change of one ticket row, together with the ledger rows appended by the same step. */
  lemma {:induction false} PutTicketed(
    db: Db, t: TicketId, row: Ticket, more: seq<Entry>, balances: map<UserId, int>, timely: bool)
    requires Ticketed(db, timely) && |more| <= 1 && db.balances.Keys <= balances.Keys
    requires forall i | 0 <= i < |more| :: more[i].ticket == Some(t)
    requires ProperRow(row, balances, timely) && TrailFits(row, Trail(db.ledger + more, Some(t)), timely)
    ensures Ticketed(db.(tickets := db.tickets[t := row], ledger := db.ledger + more, balances := balances), timely)
  {
    var after := db.(tickets := db.tickets[t := row], ledger := db.ledger + more, balances := balances);
    forall s | s != t ensures Trail(after.ledger, Some(s)) == Trail(db.ledger, Some(s)) {
      if more == [] {
        assert after.ledger == db.ledger;
      } else {
        assert after.ledger == db.ledger + [more[0]];
        TrailPush(db.ledger, more[0], Some(s));
      }
    }
  }

  /** A change of one ticket row that leaves the ledger alone. */
  lemma {:induction false} RowFits(db: Db, t: TicketId, row: Ticket, timely: bool)
    requires Ticketed(db, timely) && t in db.tickets
    requires ProperRow(row, db.balances, timely) && TrailFits(row, Trail(db.ledger, Some(t)), timely)
    ensures Ticketed(db.(tickets := db.tickets[t := row]), timely)
  {
    assert db.ledger + [] == db.ledger;
    PutTicketed(db, t, row, [], db.balances, timely);
  }

  /** Nothing here looks at the scan log. */
  lemma {:induction false} EventsFit(db: Db, events: seq<ScanEvent>, timely: bool)
    requires Ticketed(db, timely)
    ensures Ticketed(db.(events := events), timely)
  {
  }

  lemma {:induction false} EventsBalanced(db: Db, events: seq<ScanEvent>, extra: int)
    requires Balanced(db, extra)
    ensures Balanced(db.(events := events), extra)
  {
  }

  // ---- Wallets and top-ups ----

  lemma {:induction false} OpeningFits(db: Db, u: UserId, timely: bool)
    requires Ticketed(db, timely)
    ensures Ticketed(Opened(db, u), timely)
  {
  }

  lemma {:induction false} InitiationFits(db: Db, u: UserId, amount: int, ref: Ref, key: Key, timely: bool)
    requires Ticketed(db, timely)
    ensures Ticketed(OrSame(db, Wallet.TopupInitiated(db, u, amount, ref, key)), timely)
  {
    var e := Wallet.TopupRow(u, amount, ref, key);
    forall t: TicketId ensures Trail(db.ledger + [e], Some(t)) == Trail(db.ledger, Some(t)) {
      TrailPush(db.ledger, e, Some(t));
    }
  }

  lemma {:induction false} InitiationBalanced(db: Db, u: UserId, amount: int, ref: Ref, key: Key, extra: int)
    requires Balanced(db, extra)
    ensures Balanced(OrSame(db, Wallet.TopupInitiated(db, u, amount, ref, key)), extra)
  {
    if Wallet.TopupInitiated(db, u, amount, ref, key).Success? {
      InitiationKeepsBalanced(db, u, amount, ref, key, extra);
    }
  }

  lemma {:induction false} SettlingFits(db: Db, i: nat, success: bool, timely: bool)
    requires Ticketed(db, timely) && i < |db.ledger| && db.ledger[i].kind == Topup
    ensures Ticketed(Wallet.Settled(db, i, success), timely)
  {
    var after := Wallet.Settled(db, i, success);
    if after != db {
      assert after.ledger == db.ledger[i := after.ledger[i]];
      forall t: TicketId ensures Trail(after.ledger, Some(t)) == Trail(db.ledger, Some(t)) {
        TrailSet(db.ledger, i, after.ledger[i], Some(t));
      }
    }
  }

  // ---- Purchases ----

  lemma {:induction false} PurchaseFits(
    db: Db, u: UserId, fare: int, t: TicketId, key: Key, now: int, timely: bool)
    requires Ticketed(db, timely) && fare > 0
    ensures Ticketed(OrSame(db, Tickets.Purchased(db, u, fare, t, key, now)), timely)
  {
    var r := Tickets.Purchased(db, u, fare, t, key, now);
    if r.Success? {
      var e := Wallet.PurchaseEntry(db, u, fare, t, key);
      TrailPush(db.ledger, e, Some(t));
      PutTicketed(db, t, Tickets.NewTicket(u, fare, now), [e], r.value.balances, timely);
    }
  }

  lemma {:induction false} PurchaseBalanced(
    db: Db, u: UserId, fare: int, t: TicketId, key: Key, now: int, extra: int)
    requires Balanced(db, extra) && fare > 0
    ensures Balanced(OrSame(db, Tickets.Purchased(db, u, fare, t, key, now)), extra)
  {
    if Tickets.Purchased(db, u, fare, t, key, now).Success? {
      var row := Tickets.NewTicket(u, fare, now);
      HeldPut(db.tickets, t, row);
      PostingKeepsBalanced(db, Wallet.PurchaseEntry(db, u, fare, t, key), db.tickets[t := row], extra, 0);
    }
  }

  // ---- Refunds by id ----

  /** What a refund pays out without releasing a fare. */
  function RefundSurplus(row: Ticket): int {
    if row.status == Refunded then row.fare else 0
  }

  lemma {:induction false} RefundReleases(tickets: map<TicketId, Ticket>, t: TicketId, now: int)
    requires t in tickets
    ensures Total(Held(tickets[t := Expiry.AsRefunded(tickets[t], now)]))
         == Total(Held(tickets)) - tickets[t].fare + RefundSurplus(tickets[t])
  {
    HeldPut(tickets, t, Expiry.AsRefunded(tickets[t], now));
  }

  lemma {:induction false} RefundState(db: Db, t: TicketId, now: int)
    requires t in db.tickets && db.tickets[t].passenger in db.balances
    ensures var row := db.tickets[t];
            Expiry.ExpireOne(db, t, now) == Wallet.Post(db, Wallet.RefundEntry(db, row.passenger, row.fare, t)).(
              tickets := db.tickets[t := Expiry.AsRefunded(row, now)])
  {
  }

  lemma {:induction false} RefundBalanced(db: Db, t: TicketId, now: int, extra: int)
    requires Funded(db) && Balanced(db, extra) && t in db.tickets
    ensures Balanced(Expiry.ExpireOne(db, t, now), extra + RefundSurplus(db.tickets[t]))
  {
    var row := db.tickets[t];
    RefundReleases(db.tickets, t, now);
    RefundState(db, t, now);
    PostingKeepsBalanced(db, Wallet.RefundEntry(db, row.passenger, row.fare, t),
                         db.tickets[t := Expiry.AsRefunded(row, now)], extra, RefundSurplus(row));
  }

  lemma {:induction false} RefundFits(db: Db, t: TicketId, now: int, timely: bool)
    requires Ticketed(db, timely) && t in db.tickets
    requires timely ==> db.tickets[t].status == Active
    ensures Ticketed(Expiry.ExpireOne(db, t, now), timely)
  {
    var row, after := db.tickets[t], Expiry.ExpireOne(db, t, now);
    var e := Wallet.RefundEntry(db, row.passenger, row.fare, t);
    TrailPush(db.ledger, e, Some(t));
    PutTicketed(db, t, Expiry.AsRefunded(row, now), [e], after.balances, timely);
  }

  /** In a sound state, the fit of tickets and ledger survives a refund iff the ticket is ACTIVE. */
  lemma {:induction false} RefundFitsIffActive(db: Db, t: TicketId, now: int)
    requires Ticketed(db, true) && t in db.tickets
    ensures Ticketed(Expiry.ExpireOne(db, t, now), true) <==> db.tickets[t].status == Active
  {
    var row, after := db.tickets[t], Expiry.ExpireOne(db, t, now);
    if row.status == Active {
      RefundFits(db, t, now, true);
    } else {
      TrailPush(db.ledger, Wallet.RefundEntry(db, row.passenger, row.fare, t), Some(t));
      assert !TrailFits(after.tickets[t], Trail(after.ledger, Some(t)), true)
          || !ProperRow(after.tickets[t], after.balances, true);
    }
  }

  /** Money is conserved by a refund iff the ticket is not refunded yet. */
  lemma {:induction false} RefundConservesIff(db: Db, t: TicketId, now: int, extra: int)
    requires Funded(db) && Balanced(db, extra) && t in db.tickets
    ensures Conserved(Expiry.ExpireOne(db, t, now), extra) <==> db.tickets[t].status != Refunded
  {
    RefundBalanced(db, t, now, extra);
  }

  // ---- The ticket writes of scans ----

  function WriteTo(db: Db, t: TicketId, at: int, write: Sync.Write): Db
    requires t in db.tickets
  {
    OrSame(db, Sync.Written(db, t, at, write))
  }

  /** What a write adds to the fares held beyond what it takes from the wallet. */
  function WriteSurplus(row: Ticket, write: Sync.Write): int {
    if write == Sync.MarkUsed && row.status == Refunded then row.fare
    else if write == Sync.ReverseRefund && row.status != Refunded then -row.fare
    else 0
  }

  /** The row is in a status for which a scan decides on this write. */
  predicate Apt(row: Ticket, write: Sync.Write) {
    match write
    case NoWrite => true
    case MarkUsed => row.status == Active || row.status == Used
    case EarlierUse => row.status == Used
    case ReverseRefund => row.status == Refunded
  }

  lemma {:induction false} WrittenState(db: Db, t: TicketId, at: int, write: Sync.Write)
    requires Funded(db) && t in db.tickets
    ensures WriteTo(db, t, at, write)
         == (if write == Sync.ReverseRefund then Wallet.Post(db, Sync.Reversal(t, db.tickets[t])) else db)
            .(tickets := db.tickets[t := Sync.RowAfter(db.tickets[t], at, write)])
  {
  }

  lemma {:induction false} WriteBalanced(db: Db, t: TicketId, at: int, write: Sync.Write, extra: int)
    requires Funded(db) && Balanced(db, extra) && t in db.tickets
    ensures Balanced(WriteTo(db, t, at, write), extra + WriteSurplus(db.tickets[t], write))
  {
    var row := db.tickets[t];
    var used := Sync.RowAfter(row, at, write);
    WrittenState(db, t, at, write);
    HeldPut(db.tickets, t, used);
    if write == Sync.ReverseRefund {
      PostingKeepsBalanced(db, Sync.Reversal(t, row), db.tickets[t := used], extra, WriteSurplus(row, write));
    } else {
      RowsKeepBalanced(db, db.tickets[t := used], db.events, extra, WriteSurplus(row, write));
    }
  }

  lemma {:induction false} WriteFits(db: Db, t: TicketId, at: int, write: Sync.Write, timely: bool)
    requires Ticketed(db, timely) && t in db.tickets
    requires write != Sync.NoWrite ==> at <= db.tickets[t].expiresAt
    requires Apt(db.tickets[t], write)
    ensures Ticketed(WriteTo(db, t, at, write), timely)
  {
    var row := db.tickets[t];
    var used := Sync.RowAfter(row, at, write);
    Weaken(db, timely);
    WrittenState(db, t, at, write);
    if write == Sync.ReverseRefund {
      var e := Sync.Reversal(t, row);
      TrailPush(db.ledger, e, Some(t));
      PutTicketed(db, t, used, [e], Wallet.Post(db, e).balances, timely);
    } else {
      RowFits(db, t, used, timely);
    }
  }

  /** In a sound state, the fit survives the write of a scan iff the row still calls for that write. */
  lemma {:induction false} WriteFitsIffApt(db: Db, t: TicketId, at: int, write: Sync.Write)
    requires Ticketed(db, true) && t in db.tickets
    requires write != Sync.NoWrite ==> at <= db.tickets[t].expiresAt
    ensures Ticketed(WriteTo(db, t, at, write), true) <==> Apt(db.tickets[t], write)
  {
    var row, after := db.tickets[t], WriteTo(db, t, at, write);
    if Apt(row, write) {
      WriteFits(db, t, at, write, true);
    } else {
      Weaken(db, true);
      WrittenState(db, t, at, write);
      TrailPush(db.ledger, Sync.Reversal(t, row), Some(t));
      assert !TrailFits(after.tickets[t], Trail(after.ledger, Some(t)), true)
          || !ProperRow(after.tickets[t], after.balances, true);
    }
  }

  /** Judged on the row as it is, a scan decides on an apt write. */
  lemma {:induction false} JudgedIsApt(row: Ticket, balances: map<UserId, int>, at: int, isInspection: bool, timely: bool)
    requires ProperRow(row, balances, timely)
    ensures var write := Sync.Judge(row, at, isInspection).write;
            && Apt(row, write) && WriteSurplus(row, write) == 0
            && (write != Sync.NoWrite ==> at <= row.expiresAt)
  {
  }

  /** The conditional update of online validation is the write of a boarding scan on an ACTIVE row. */
  lemma {:induction false} UseIsWrite(db: Db, t: TicketId, at: int)
    requires t in db.tickets
    ensures WriteTo(db, t, at, Sync.MarkUsed)
         == db.(tickets := db.tickets[t := db.tickets[t].(status := Used, usedAt := Some(at))])
  {
  }

  // ---- What stays ----

  /** Nobody's ticket changes hands, price or expiry, no wallet goes away, and new tickets are funded. */
  predicate Persists(db: Db, after: Db) {
    && db.balances.Keys <= after.balances.Keys
    && (forall t | t in db.tickets ::
          && t in after.tickets && after.tickets[t].passenger == db.tickets[t].passenger
          && after.tickets[t].fare == db.tickets[t].fare && after.tickets[t].expiresAt == db.tickets[t].expiresAt)
    && forall t | t in after.tickets && t !in db.tickets ::
         after.tickets[t].passenger in after.balances && after.tickets[t].fare > 0
  }

  lemma {:induction false} OpeningPersists(db: Db, u: UserId)
    ensures Persists(db, Opened(db, u))
  {
  }

  lemma {:induction false} InitiationPersists(db: Db, u: UserId, amount: int, ref: Ref, key: Key)
    ensures Persists(db, OrSame(db, Wallet.TopupInitiated(db, u, amount, ref, key)))
  {
  }

  lemma {:induction false} SettlingPersists(db: Db, i: nat, success: bool)
    requires i < |db.ledger|
    ensures Persists(db, Wallet.Settled(db, i, success))
  {
  }

  lemma {:induction false} PurchasePersists(db: Db, u: UserId, fare: int, t: TicketId, key: Key, now: int)
    requires fare > 0
    ensures Persists(db, OrSame(db, Tickets.Purchased(db, u, fare, t, key, now)))
  {
  }

  lemma {:induction false} RefundPersists(db: Db, t: TicketId, now: int)
    ensures Persists(db, Expiry.ExpireOne(db, t, now))
  {
  }

  lemma {:induction false} WritePersists(db: Db, t: TicketId, at: int, write: Sync.Write)
    requires Funded(db) && t in db.tickets
    ensures Persists(db, WriteTo(db, t, at, write))
  {
    WrittenState(db, t, at, write);
  }

  // ---- Overdrafts ----

  predicate NonNegative(db: Db) {
    forall u | u in db.balances :: db.balances[u] >= 0
  }

  lemma {:induction false} SettledNonNegative(db: Db, i: nat, success: bool)
    requires WellKept(db) && NonNegative(db) && i < |db.ledger|
    ensures NonNegative(Wallet.Settled(db, i, success))
  {
    assert Sound(db.ledger[i], db.balances);
  }

  lemma {:induction false} WriteNonNegative(db: Db, t: TicketId, at: int, write: Sync.Write)
    requires Funded(db) && NonNegative(db) && t in db.tickets
    ensures NonNegative(WriteTo(db, t, at, write))
       <==> !(write == Sync.ReverseRefund && db.balances[db.tickets[t].passenger] < db.tickets[t].fare)
  {
    WrittenState(db, t, at, write);
    var row, after := db.tickets[t], WriteTo(db, t, at, write);
    assert write == Sync.ReverseRefund ==>
      after.balances == db.balances[row.passenger := db.balances[row.passenger] - row.fare];
    assert write != Sync.ReverseRefund ==> after.balances == db.balances;
    if write == Sync.ReverseRefund {
      assert after.balances[row.passenger] == db.balances[row.passenger] - row.fare;
    }
  }

  /** A debit is covered by the balance. */
  lemma {:induction false} PurchasedNonNegative(db: Db, u: UserId, fare: int, t: TicketId, key: Key, now: int)
    requires NonNegative(db)
    ensures NonNegative(OrSame(db, Tickets.Purchased(db, u, fare, t, key, now)))
  {
  }

  lemma {:induction false} ExpiredNonNegative(db: Db, t: TicketId, now: int)
    requires NonNegative(db) && t in db.tickets && db.tickets[t].fare > 0
    ensures NonNegative(Expiry.ExpireOne(db, t, now))
  {
  }
}
