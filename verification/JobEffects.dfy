/**
 What a run of the expiry job does to each ticket and wallet, told from the columns alone: status,
 expiry time and passenger of the rows before it, and the time of the job's last query.
 */
module JobEffects {
  import opened Store
  import opened Totals
  import Expiry
  import opened JobClock

  /** The row is ACTIVE, expired before `last`, and its passenger has a wallet. */
  predicate Due(db: Db, t: TicketId, last: int) {
    && t in db.tickets
    && db.tickets[t].status == Active
    && db.tickets[t].expiresAt < last
    && db.tickets[t].passenger in db.balances
  }

  /** ACTIVE rows that expired before `now` and belong to nobody with a wallet. */
  function Walletless(db: Db, now: int): set<TicketId> {
    set t | t in db.tickets && db.tickets[t].status == Active && db.tickets[t].expiresAt < now
         && db.tickets[t].passenger !in db.balances
  }

  /** What a query may return: distinct rows, ACTIVE and expired before now; at most 100, and all if fewer. */
  lemma {:induction false} PickInColumns(db: Db, now: int, rows: seq<TicketId>)
    ensures Expiry.ValidPick(db, now, rows) <==>
      && (forall i, j | 0 <= i < j < |rows| :: rows[i] != rows[j])
      && |rows| <= 100
      && (forall t | t in rows :: t in db.tickets && db.tickets[t].status == Active && db.tickets[t].expiresAt < now)
      && (|rows| < 100 ==>
            forall t | t in db.tickets && db.tickets[t].status == Active && db.tickets[t].expiresAt < now :: t in rows)
  {
    assert forall t :: t in Expiry.Overdue(db, now) <==>
      t in db.tickets && db.tickets[t].status == Active && db.tickets[t].expiresAt < now;
    assert forall i | 0 <= i < |rows| :: rows[i] in rows;
  }

  /** Fares of `u`'s tickets that are due. */
  function DueFares(db: Db, u: UserId, last: int): map<TicketId, int> {
    map t | t in db.tickets && Due(db, t, last) && db.tickets[t].passenger == u :: db.tickets[t].fare
  }

  /** The row is as it was, or an ACTIVE one that was refunded. */
  predicate KeptOrRefunded(before: Ticket, after: Ticket) {
    || after == before
    || (before.status == Active && after.refundedAt.Some?
        && after == before.(status := Refunded, refundedAt := after.refundedAt))
  }

  ghost predicate AllKeptOrRefunded(db: Db, after: Db) {
    after.tickets.Keys == db.tickets.Keys
    && forall t | t in db.tickets :: KeptOrRefunded(db.tickets[t], after.tickets[t])
  }

  lemma {:induction false} Untouched(db: Db, stamps: seq<Stamp>, t: TicketId)
    requires t in db.tickets && t !in Ids(stamps)
    ensures t in ExpireEach(db, stamps).tickets && ExpireEach(db, stamps).tickets[t] == db.tickets[t]
  {
    if stamps != [] {
      var n := |stamps| - 1;
      assert Ids(stamps[..n]) == Ids(stamps)[..n] && stamps[n].ticket == Ids(stamps)[n];
      Untouched(db, stamps[..n], t);
    }
  }

  lemma {:induction false} BatchKeepsOrRefunds(db: Db, stamps: seq<Stamp>)
    requires Expiry.Distinct(Ids(stamps))
    requires forall i | 0 <= i < |stamps| :: stamps[i].ticket in db.tickets && db.tickets[stamps[i].ticket].status == Active
    ensures AllKeptOrRefunded(db, ExpireEach(db, stamps))
  {
    if stamps != [] {
      var n := |stamps| - 1;
      var mid, t := ExpireEach(db, stamps[..n]), stamps[n].ticket;
      assert Ids(stamps[..n]) == Ids(stamps)[..n] && t == Ids(stamps)[n];
      assert stamps[..n] + [stamps[n]] == stamps;
      BatchKeepsOrRefunds(db, stamps[..n]);
      Untouched(db, stamps[..n], t);
    }
  }

  lemma {:induction false} KeptOrRefundedTwice(a: Ticket, b: Ticket, c: Ticket)
    requires KeptOrRefunded(a, b) && KeptOrRefunded(b, c)
    ensures KeptOrRefunded(a, c)
  {
  }

  lemma {:induction false} PickedAreActive(db: Db, first: Batch)
    requires Expiry.ValidPick(db, first.queried, Ids(first.stamps))
    ensures forall i | 0 <= i < |first.stamps| ::
      first.stamps[i].ticket in db.tickets && db.tickets[first.stamps[i].ticket].status == Active
  {
    forall i | 0 <= i < |first.stamps|
      ensures first.stamps[i].ticket in db.tickets && db.tickets[first.stamps[i].ticket].status == Active
    {
      assert Ids(first.stamps)[i] in Expiry.Overdue(db, first.queried);
    }
  }

  lemma {:induction false} JobKeepsOrRefunds(db: Db, batches: seq<Batch>)
    requires Clocked(db, batches)
    ensures AllKeptOrRefunded(db, After(db, batches))
    decreases |batches|
  {
    var mid := ExpireEach(db, batches[0].stamps);
    PickedAreActive(db, batches[0]);
    BatchKeepsOrRefunds(db, batches[0].stamps);
    if |batches| > 1 {
      JobKeepsOrRefunds(mid, batches[1..]);
      forall t | t in db.tickets ensures KeptOrRefunded(db.tickets[t], After(db, batches).tickets[t]) {
        KeptOrRefundedTwice(db.tickets[t], mid.tickets[t], After(db, batches).tickets[t]);
      }
    } else {
      assert batches[1..] == [] && After(mid, []) == mid;
    }
  }

  /** The tickets that the job is said to refund are the ones that are due. */
  lemma {:induction false} RefundableIsDue(db: Db, last: int)
    ensures forall t :: t in Expiry.Refundable(db, last) <==> Due(db, t, last)
    ensures Expiry.Failing(db, last) == Walletless(db, last)
    ensures forall u :: Expiry.Fares(db, Expiry.Refundable(db, last), u) == DueFares(db, u, last)
  {
  }

  /** What the whole job does to one row. */
  predicate RowEffect(db: Db, after: Db, t: TicketId, last: int)
    requires t in db.tickets
  {
    && t in after.tickets
    && var before, row := db.tickets[t], after.tickets[t];
       if Due(db, t, last) then row == before.(status := Refunded, refundedAt := row.refundedAt) && row.refundedAt.Some?
       else row == before
  }

  lemma {:induction false} RowChanges(db: Db, batches: seq<Batch>, last: int, t: TicketId)
    requires Clocked(db, batches) && last == batches[|batches| - 1].queried && t in db.tickets
    ensures RowEffect(db, After(db, batches), t, last)
  {
    var after := After(db, batches);
    var order := ClockedIsOneShot(db, db, batches);
    var plain := Expiry.ExpireAll(db, order, last);
    JobKeepsOrRefunds(db, batches);
    RefundableIsDue(db, last);
    assert SameRow(after.tickets[t], plain.tickets[t]);
  }

  /**
   A row differs iff it was ACTIVE, had expired before `last` and belongs to a passenger with a wallet.
   It is then REFUNDED; all else about it, every other row, the scan log and the set of wallets are as
   they were; and each wallet has grown by its due fares.
   */
  ghost predicate Swept(db: Db, after: Db, last: int) {
    && after.tickets.Keys == db.tickets.Keys
    && (forall t | t in db.tickets :: RowEffect(db, after, t, last))
    && (forall t | t in db.tickets :: after.tickets[t] != db.tickets[t] <==>
          && db.tickets[t].status == Active && db.tickets[t].expiresAt < last
          && db.tickets[t].passenger in db.balances)
    && after.events == db.events && after.balances.Keys == db.balances.Keys
    && forall u | u in db.balances :: after.balances[u] == db.balances[u] + Total(DueFares(db, u, last))
  }

  /** Every run of the job that ends sweeps the tickets that are due at its last query. */
  lemma {:induction false} JobSweeps(db: Db, batches: seq<Batch>, last: int)
    requires Clocked(db, batches) && last == batches[|batches| - 1].queried
    ensures Swept(db, After(db, batches), last)
  {
    var after := After(db, batches);
    var order := ClockedIsOneShot(db, db, batches);
    JobKeepsOrRefunds(db, batches);
    forall t | t in db.tickets
      ensures RowEffect(db, after, t, last)
      ensures after.tickets[t] != db.tickets[t] <==> Due(db, t, last)
    {
      RowChanges(db, batches, last, t);
    }
    RefundableIsDue(db, last);
  }

  /** From a query at time `now` the job can come to an end iff fewer than 100 walletless tickets are overdue. */
  lemma {:induction false} EndsIffUnder100Walletless(db: Db, now: int)
    ensures CanEnd(db, now) <==> |Walletless(db, now)| < 100
  {
    RefundableIsDue(db, now);
    EndsIffFewFailing(db, now);
  }
}
