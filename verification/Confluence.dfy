/**
 A sync batch that arrives late and the expiry job commute: whichever comes first, the tickets,
 balances and scan events are the same, and the ledgers differ by refunds that were taken back.
 */
module Confluence {
  import opened Wrappers
  import opened Store
  import opened Totals
  import opened Sync
  import opened Expiry
  import opened Convergence

  predicate ActiveNotRefunded(db: Db) {
    forall t | t in db.tickets && db.tickets[t].status == Active :: db.tickets[t].refundedAt == None
  }

  function RefundOf(row: Ticket): Line {
    Line(Refund, row.passenger, row.fare)
  }

  function ReversalOf(row: Ticket): Line {
    Line(Adjustment, row.passenger, row.fare)
  }

  /** A refund of the ticket followed by its reversal. */
  function CancellingPair(row: Ticket): seq<Line> {
    [RefundOf(row), ReversalOf(row)]
  }

  ghost predicate RowsAhead(x: Db, y: Db, now: int) {
    && x.tickets == (map t | t in y.tickets ::
         if t in Refundable(y, now) then AsRefunded(y.tickets[t], now) else y.tickets[t])
    && x.events == y.events
    && x.balances.Keys == y.balances.Keys
  }

  ghost predicate BalancesAhead(x: Db, y: Db, now: int)
    requires x.balances.Keys == y.balances.Keys
  {
    forall u | u in y.balances :: x.balances[u] == y.balances[u] + Total(Fares(y, Refundable(y, now), u))
  }

  ghost predicate TrailsAhead(x: Db, y: Db, now: int) {
    && (forall t | t in y.tickets :: TrailAhead(x, y, now, t))
    && forall t: Option<TicketId> | t.None? || t.value !in y.tickets :: Trail(x.ledger, t) == Trail(y.ledger, t)
  }

  /** `x` is the job's effect on `y`, except that `x` may hold cancelled refunds of used tickets. */
  ghost predicate Ahead(x: Db, y: Db, now: int) {
    RowsAhead(x, y, now) && BalancesAhead(x, y, now) && TrailsAhead(x, y, now)
  }

  ghost predicate TrailAhead(x: Db, y: Db, now: int, t: TicketId)
    requires t in y.tickets
  {
    var row := y.tickets[t];
    var mine, theirs := Trail(x.ledger, Some(t)), Trail(y.ledger, Some(t));
    && (t in Refundable(y, now) ==> mine == theirs + [RefundOf(row)])
    && (t !in Refundable(y, now) ==>
          || mine == theirs
          || (mine == theirs + CancellingPair(row) && row.status == Used && row.usedAt.Some?))
  }

  lemma {:induction false} JobIsAhead(db: Db, now: int, after: Db)
    requires OneShot(db, now, after)
    ensures Ahead(after, db, now)
  {
  }

  /** The ledger row, if any, that a delivery adds. */
  lemma {:induction false} DeliverLedger(db: Db, d: Delivery)
    ensures var p, after := d.scan, Deliver(db, d);
            if p.ticket in db.tickets && !Logged(db.events, p)
               && Judge(db.tickets[p.ticket], p.scannedAt, p.isInspection).write == ReverseRefund
               && db.tickets[p.ticket].passenger in db.balances
            then after.ledger == db.ledger + [Reversal(p.ticket, db.tickets[p.ticket])]
            else after.ledger == db.ledger
  {
  }

  lemma {:induction false} DeliverEvents(db: Db, d: Delivery)
    ensures var p, after := d.scan, Deliver(db, d);
            if p.ticket !in db.tickets || Logged(db.events, p) then after.events == db.events
            else
              var v := Judge(db.tickets[p.ticket], p.scannedAt, p.isInspection);
              if d.torn || (v.write == ReverseRefund && db.tickets[p.ticket].passenger !in db.balances)
              then after.events == db.events
              else after.events == db.events + [EventOf(p, v.result, d.trip, d.syncedAt)]
  {
  }

  /** The two rows of the scanned ticket call for the same result; only a refund has to be undone. */
  lemma {:induction false} JudgeAhead(x: Ticket, y: Ticket, now: int, refundable: bool, at: int, isInspection: bool)
    requires x == if refundable then AsRefunded(y, now) else y
    requires refundable ==> y.status == Active
    ensures var v, w := Judge(x, at, isInspection), Judge(y, at, isInspection);
            && v.result == w.result && v.action == w.action
            && (!refundable ==> v == w)
            && (refundable ==> (v.write == w.write == NoWrite) || (v.write == ReverseRefund && w.write == MarkUsed))
  {
  }

  lemma {:induction false} FaresSame(y: Db, after: Db, now: int, u: UserId)
    requires Refundable(after, now) == Refundable(y, now)
    requires forall t | t in Refundable(y, now) :: t in after.tickets && after.tickets[t] == y.tickets[t]
    ensures Fares(after, Refundable(after, now), u) == Fares(y, Refundable(y, now), u)
  {
  }

  lemma {:induction false} FaresDrop(y: Db, after: Db, now: int, t: TicketId, u: UserId)
    requires t in Refundable(y, now) && Refundable(after, now) == Refundable(y, now) - {t}
    requires forall s | s in Refundable(after, now) :: s in after.tickets && after.tickets[s] == y.tickets[s]
    ensures Total(Fares(y, Refundable(y, now), u))
         == Total(Fares(after, Refundable(after, now), u)) + if y.tickets[t].passenger == u then y.tickets[t].fare else 0
  {
    var f, g := Fares(y, Refundable(y, now), u), Fares(after, Refundable(after, now), u);
    if y.tickets[t].passenger == u {
      TotalRemove(f, t);
      assert f - {t} == g;
    } else {
      assert f == g;
    }
  }

  lemma {:induction false} RefundableAfter(y: Db, d: Delivery, now: int)
    ensures var t, after := d.scan.ticket, Deliver(y, d);
            && Refundable(after, now) ==
                 Refundable(y, now) - (if after.tickets == y.tickets then {} else {t})
            && after.balances.Keys == y.balances.Keys
            && forall s | s in y.tickets && (s != t || after.tickets == y.tickets) ::
                 s in after.tickets && after.tickets[s] == y.tickets[s]
  {
    DeliverEffect(y, d);
  }

  lemma {:induction false} RowsStep(x: Db, y: Db, now: int, d: Delivery)
    requires RowsAhead(x, y, now) && ActiveNotRefunded(y)
    ensures RowsAhead(Deliver(x, d), Deliver(y, d), now)
  {
    var p := d.scan;
    DeliverEffect(x, d);
    DeliverEffect(y, d);
    DeliverEvents(x, d);
    DeliverEvents(y, d);
    RefundableAfter(y, d, now);
    if p.ticket in y.tickets {
      JudgeAhead(x.tickets[p.ticket], y.tickets[p.ticket], now, p.ticket in Refundable(y, now),
                 p.scannedAt, p.isInspection);
    }
  }

  lemma {:induction false} BalancesStep(x: Db, y: Db, now: int, d: Delivery, u: UserId)
    requires RowsAhead(x, y, now) && u in y.balances
    requires x.balances[u] == y.balances[u] + Total(Fares(y, Refundable(y, now), u))
    ensures var x', y' := Deliver(x, d), Deliver(y, d);
            && u in x'.balances && u in y'.balances
            && x'.balances[u] == y'.balances[u] + Total(Fares(y', Refundable(y', now), u))
  {
    var p, y' := d.scan, Deliver(y, d);
    DeliverEffect(x, d);
    DeliverEffect(y, d);
    RefundableAfter(y, d, now);
    if p.ticket in y.tickets {
      JudgeAhead(x.tickets[p.ticket], y.tickets[p.ticket], now, p.ticket in Refundable(y, now),
                 p.scannedAt, p.isInspection);
    }
    if p.ticket in Refundable(y, now) && y'.tickets != y.tickets {
      FaresDrop(y, y', now, p.ticket, u);
    } else {
      FaresSame(y, y', now, u);
    }
  }

  /** The scanned ticket is still to be refunded on one side: there a boarding scan adds the reversal. */
  lemma {:induction false} CancelledTrailStep(x: Db, y: Db, now: int, d: Delivery)
    requires RowsAhead(x, y, now) && d.scan.ticket in Refundable(y, now) && TrailAhead(x, y, now, d.scan.ticket)
    ensures d.scan.ticket in Deliver(y, d).tickets
    ensures TrailAhead(Deliver(x, d), Deliver(y, d), now, d.scan.ticket)
  {
    var p, t := d.scan, d.scan.ticket;
    var row := y.tickets[t];
    DeliverEffect(y, d);
    DeliverLedger(x, d);
    DeliverLedger(y, d);
    RefundableAfter(y, d, now);
    JudgeAhead(x.tickets[t], row, now, true, p.scannedAt, p.isInspection);
    TrailPush(x.ledger, Reversal(t, x.tickets[t]), Some(t));
    assert Trail(y.ledger, Some(t)) + [RefundOf(row)] + [ReversalOf(row)]
        == Trail(y.ledger, Some(t)) + CancellingPair(row);
  }

  /** The scanned ticket's rows are equal: both sides add the same. */
  lemma {:induction false} EqualTrailStep(x: Db, y: Db, now: int, d: Delivery)
    requires RowsAhead(x, y, now) && d.scan.ticket in y.tickets && d.scan.ticket !in Refundable(y, now)
    requires TrailAhead(x, y, now, d.scan.ticket)
    ensures d.scan.ticket in Deliver(y, d).tickets
    ensures TrailAhead(Deliver(x, d), Deliver(y, d), now, d.scan.ticket)
  {
    var p, t := d.scan, d.scan.ticket;
    var row := y.tickets[t];
    assert x.tickets[t] == row;
    DeliverEffect(y, d);
    DeliverLedger(x, d);
    DeliverLedger(y, d);
    RefundableAfter(y, d, now);
    TrailPush(x.ledger, Reversal(t, row), Some(t));
    TrailPush(y.ledger, Reversal(t, row), Some(t));
  }

  lemma {:induction false} OtherTrail(x: Db, d: Delivery, t: Option<TicketId>)
    requires t != Some(d.scan.ticket)
    ensures Trail(Deliver(x, d).ledger, t) == Trail(x.ledger, t)
  {
    DeliverLedger(x, d);
    if d.scan.ticket in x.tickets {
      TrailPush(x.ledger, Reversal(d.scan.ticket, x.tickets[d.scan.ticket]), t);
    }
  }

  lemma {:induction false} TrailsStep(x: Db, y: Db, now: int, d: Delivery)
    requires RowsAhead(x, y, now) && TrailsAhead(x, y, now)
    ensures TrailsAhead(Deliver(x, d), Deliver(y, d), now)
  {
    var x', y' := Deliver(x, d), Deliver(y, d);
    RefundableAfter(y, d, now);
    DeliverEffect(y, d);
    forall t | t in y'.tickets ensures TrailAhead(x', y', now, t) {
      if t == d.scan.ticket {
        if t in Refundable(y, now) {
          CancelledTrailStep(x, y, now, d);
        } else {
          EqualTrailStep(x, y, now, d);
        }
      } else {
        OtherTrail(x, d, Some(t));
        OtherTrail(y, d, Some(t));
      }
    }
    forall t: Option<TicketId> | t.None? || t.value !in y'.tickets
      ensures Trail(x'.ledger, t) == Trail(y'.ledger, t)
    {
      DeliverLedger(x, d);
      DeliverLedger(y, d);
      if t != Some(d.scan.ticket) {
        OtherTrail(x, d, t);
        OtherTrail(y, d, t);
      }
    }
  }

  lemma {:induction false} StepStaysAhead(x: Db, y: Db, now: int, d: Delivery)
    requires Ahead(x, y, now) && ActiveNotRefunded(y)
    ensures Ahead(Deliver(x, d), Deliver(y, d), now)
  {
    var x', y' := Deliver(x, d), Deliver(y, d);
    RowsStep(x, y, now, d);
    TrailsStep(x, y, now, d);
    RefundableAfter(y, d, now);
    forall u | u in y'.balances
      ensures x'.balances[u] == y'.balances[u] + Total(Fares(y', Refundable(y', now), u))
    {
      BalancesStep(x, y, now, d, u);
    }
  }

  lemma {:induction false} DeliverKeepsActive(y: Db, d: Delivery)
    requires ActiveNotRefunded(y)
    ensures ActiveNotRefunded(Deliver(y, d))
  {
    DeliverEffect(y, d);
  }

  lemma {:induction false} RunStaysAhead(x: Db, y: Db, now: int, ds: seq<Delivery>)
    requires Ahead(x, y, now) && ActiveNotRefunded(y)
    ensures Ahead(DeliverAll(x, ds), DeliverAll(y, ds), now) && ActiveNotRefunded(DeliverAll(y, ds))
  {
    if ds != [] {
      var prefix, d := ds[..|ds| - 1], ds[|ds| - 1];
      RunStaysAhead(x, y, now, prefix);
      var mid := DeliverAll(y, prefix);
      DeliverKeepsActive(mid, d);
      StepStaysAhead(DeliverAll(x, prefix), mid, now, d);
    }
  }

  predicate SameButCancelled(mine: seq<Line>, theirs: seq<Line>, row: Ticket) {
    mine == theirs || mine == theirs + CancellingPair(row)
  }

  lemma {:induction false} FinalTrail(x: Db, y: Db, now: int, last: Db, t: TicketId)
    requires t in y.tickets && TrailAhead(x, y, now, t) && OneShot(y, now, last)
    ensures t in last.tickets
    ensures SameButCancelled(Trail(x.ledger, Some(t)), Trail(last.ledger, Some(t)), last.tickets[t])
  {
    assert Trail(last.ledger, Some(t))
        == Trail(y.ledger, Some(t)) + RefundLine(y, Refundable(y, now), Some(t));
  }

  /** When the job has run on the other side too, nothing but cancelled refunds tells them apart. */
  lemma {:induction false} CatchUp(x: Db, y: Db, now: int, last: Db)
    requires RowsAhead(x, y, now) && BalancesAhead(x, y, now) && OneShot(y, now, last)
    ensures x.tickets == last.tickets && x.balances == last.balances && x.events == last.events
  {
  }

  lemma {:induction false} CatchUpOthers(x: Db, y: Db, now: int, last: Db)
    requires TrailsAhead(x, y, now) && OneShot(y, now, last)
    ensures Trail(x.ledger, None) == Trail(last.ledger, None)
  {
    assert Trail(last.ledger, None) == Trail(y.ledger, None) + RefundLine(y, Refundable(y, now), None);
  }

  lemma {:induction false} KeysKept(db: Db, ds: seq<Delivery>)
    ensures DeliverAll(db, ds).tickets.Keys == db.tickets.Keys
  {
    if ds != [] {
      KeysKept(db, ds[..|ds| - 1]);
      DeliverEffect(DeliverAll(db, ds[..|ds| - 1]), ds[|ds| - 1]);
    }
  }

  /**
   `jobThenSync` and `syncThenJob` start from one state at one instant and agree on everything but
   cancelling pairs of ledger rows.
   */
  lemma {:induction false} LateSyncAndExpiryCommute(
    db: Db, now: int, ds: seq<Delivery>, afterJob: Db, jobThenSync: Db, syncThenJob: Db)
    requires ActiveNotRefunded(db)
    requires OneShot(db, now, afterJob) && jobThenSync == DeliverAll(afterJob, ds)
    requires OneShot(DeliverAll(db, ds), now, syncThenJob)
    ensures jobThenSync.tickets == syncThenJob.tickets
    ensures jobThenSync.balances == syncThenJob.balances
    ensures jobThenSync.events == syncThenJob.events
    ensures Trail(jobThenSync.ledger, None) == Trail(syncThenJob.ledger, None)
    ensures syncThenJob.tickets.Keys == db.tickets.Keys
    ensures forall t | t in db.tickets ::
      SameButCancelled(Trail(jobThenSync.ledger, Some(t)), Trail(syncThenJob.ledger, Some(t)), syncThenJob.tickets[t])
  {
    var y := DeliverAll(db, ds);
    JobIsAhead(db, now, afterJob);
    RunStaysAhead(afterJob, db, now, ds);
    CatchUp(jobThenSync, y, now, syncThenJob);
    CatchUpOthers(jobThenSync, y, now, syncThenJob);
    KeysKept(db, ds);
    forall t | t in db.tickets
      ensures SameButCancelled(Trail(jobThenSync.ledger, Some(t)), Trail(syncThenJob.ledger, Some(t)),
                               syncThenJob.tickets[t])
    {
      FinalTrail(jobThenSync, y, now, syncThenJob, t);
    }
  }
}
