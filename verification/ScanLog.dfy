/** The scan log and the ticket table agree along a crash-free run iff it refunds no used ticket. */
module ScanLog {
  import opened Wrappers
  import opened Store
  import opened Steps
  import opened Runs
  import Validation
  import Sync
  import Convergence
  import Expiry
  import Resend

  /** The scan times of `t`'s VALID events, in log order. */
  function ValidTimes(events: seq<ScanEvent>, t: TicketId): seq<int> {
    if events == [] then []
    else
      var e := events[|events| - 1];
      ValidTimes(events[..|events| - 1], t) + if e.ticket == t && e.result == Valid then [e.scannedAt] else []
  }

  lemma {:induction false} ValidTimesPush(events: seq<ScanEvent>, e: ScanEvent, t: TicketId)
    ensures ValidTimes(events + [e], t)
         == ValidTimes(events, t) + if e.ticket == t && e.result == Valid then [e.scannedAt] else []
  {
    assert (events + [e])[..|events|] == events;
  }

  predicate Decreasing(s: seq<int>) {
    forall i, j | 0 <= i < j < |s| :: s[i] > s[j]
  }

  /** A ticket is used iff it has a VALID event; the last of them is its recorded use. */
  ghost predicate LogFits(row: Ticket, times: seq<int>) {
    && (row.status == Used <==> times != [])
    && Decreasing(times)
    && (times != [] ==> row.usedAt == Some(times[|times| - 1]))
  }

  ghost predicate LogAgrees(db: Db) {
    && (forall t | t in db.tickets :: LogFits(db.tickets[t], ValidTimes(db.events, t)))
    && forall t | t !in db.tickets :: ValidTimes(db.events, t) == []
  }

  predicate CrashFree(run: seq<Action>) {
    forall i | 0 <= i < |run| :: !Torn(run[i])
  }

  /** The step is cut off between its ticket write and its log insert. */
  predicate Torn(a: Action) {
    (a.SyncScan? && a.delivery.torn) || (a.Validate? && a.torn)
  }

  /** One event about `t`, written together with its row. */
  lemma {:induction false} PutAgrees(db: Db, t: TicketId, row: Ticket, e: ScanEvent, after: Db)
    requires LogAgrees(db) && t in db.tickets && e.ticket == t
    requires after.tickets == db.tickets[t := row] && after.events == db.events + [e]
    requires LogFits(row, ValidTimes(db.events, t) + if e.result == Valid then [e.scannedAt] else [])
    ensures LogAgrees(after)
  {
    ValidTimesPush(db.events, e, t);
    forall s | s != t ensures ValidTimes(after.events, s) == ValidTimes(db.events, s) {
      ValidTimesPush(db.events, e, s);
    }
    assert LogFits(after.tickets[t], ValidTimes(after.events, t));
  }

  lemma {:induction false} JudgedFits(row: Ticket, times: seq<int>, at: int, isInspection: bool)
    requires LogFits(row, times) && (row.status == Used ==> row.usedAt.Some?)
    ensures var v := Sync.Judge(row, at, isInspection);
            LogFits(Sync.RowAfter(row, at, v.write), times + if v.result == Valid then [at] else [])
  {
    assert times + [] == times;
  }

  lemma {:induction false} DeliveryAgrees(db: Db, d: Sync.Delivery)
    requires LogAgrees(db) && Ticketed(db, false) && !d.torn
    ensures LogAgrees(Sync.Deliver(db, d))
  {
    var p, after := d.scan, Sync.Deliver(db, d);
    if p.ticket in db.tickets && !Sync.Logged(db.events, p) {
      var row := db.tickets[p.ticket];
      var v := Sync.Judge(row, p.scannedAt, p.isInspection);
      JudgedFits(row, ValidTimes(db.events, p.ticket), p.scannedAt, p.isInspection);
      PutAgrees(db, p.ticket, Sync.RowAfter(row, p.scannedAt, v.write),
                Sync.EventOf(p, v.result, d.trip, d.syncedAt), after);
    }
  }

  /** What online validation writes: one event, and the ticket row when the event is VALID. */
  lemma {:induction false} ValidatedEvent(db: Db, qr: Sync.Qr, r: Validation.Request, trip: Option<TripId>)
    ensures var after := Validation.Validated(db, qr, r, trip).after;
            || after == db
            || var parsed := qr.parse(r.payload);
               && parsed.Some? && parsed.value in db.tickets
               && var row := db.tickets[parsed.value];
                  && |after.events| == |db.events| + 1 && after.events == db.events + [after.events[|db.events|]]
                  && var e := after.events[|db.events|];
                     && e.ticket == parsed.value
                     && (if e.result == Valid then
                           && row.status == Active && e.scannedAt == r.scannedAt
                           && after.tickets == db.tickets[parsed.value :=
                                row.(status := Used, usedAt := Some(r.scannedAt))]
                         else after.tickets == db.tickets)
  {
  }

  lemma {:induction false} ValidationAgrees(db: Db, qr: Sync.Qr, r: Validation.Request, trip: Option<TripId>)
    requires LogAgrees(db) && Ticketed(db, false)
    ensures LogAgrees(Validation.Validated(db, qr, r, trip).after)
  {
    var after := Validation.Validated(db, qr, r, trip).after;
    ValidatedEvent(db, qr, r, trip);
    if after != db {
      var t, e := qr.parse(r.payload).value, after.events[|db.events|];
      var times := ValidTimes(db.events, t);
      assert times + [] == times;
      assert db.tickets[t := db.tickets[t]] == db.tickets;
      PutAgrees(db, t, after.tickets[t], e, after);
    }
  }

  lemma {:induction false} RefundAgreesIff(db: Db, t: TicketId, now: int)
    requires LogAgrees(db) && Ticketed(db, false) && t in db.tickets
    ensures LogAgrees(Expiry.ExpireOne(db, t, now)) <==> db.tickets[t].status != Used
  {
    var after := Expiry.ExpireOne(db, t, now);
    assert after.events == db.events && after.tickets == db.tickets[t := Expiry.AsRefunded(db.tickets[t], now)];
    assert LogFits(after.tickets[t], ValidTimes(after.events, t)) <==> db.tickets[t].status != Used;
  }

  /** A step that is not torn keeps the agreement iff it does not refund a used ticket. */
  lemma {:induction false} StepAgreesIff(db: Db, qr: Sync.Qr, a: Action)
    requires LogAgrees(db) && Ticketed(db, false) && !Torn(a)
    ensures LogAgrees(Step(db, qr, a)) <==> !Refunds(db, a, Used)
  {
    if a.SyncScan? {
      DeliveryAgrees(db, a.delivery);
    } else if a.Validate? {
      ValidationAgrees(db, qr, a.request, a.trip);
    } else if a.ExpireTicket? && a.t in db.tickets {
      RefundAgreesIff(db, a.t, a.now);
    }
  }

  lemma {:induction false} RunRows(qr: Sync.Qr, run: seq<Action>)
    ensures Ticketed(Run(qr, run), false)
  {
    RunKeepsBooks(qr, run);
    Weaken(Run(qr, run), Timely(qr, run));
  }

  lemma {:induction false} RunAgrees(qr: Sync.Qr, run: seq<Action>)
    requires CrashFree(run) && Spares(qr, run, Used)
    ensures LogAgrees(Run(qr, run))
  {
    if run != [] {
      var prefix, a := run[..|run| - 1], run[|run| - 1];
      RunAgrees(qr, prefix);
      RunRows(qr, prefix);
      StepAgreesIff(Run(qr, prefix), qr, a);
    }
  }

  /** The log disagrees right after the first refund of a used ticket. */
  lemma {:induction false} Disagrees(qr: Sync.Qr, run: seq<Action>) returns (n: nat)
    requires CrashFree(run) && !Spares(qr, run, Used)
    ensures n <= |run| && !LogAgrees(Run(qr, run[..n]))
  {
    var prefix, a := run[..|run| - 1], run[|run| - 1];
    n := |run|;
    assert run[..n] == run;
    if Spares(qr, prefix, Used) {
      RunAgrees(qr, prefix);
      RunRows(qr, prefix);
      StepAgreesIff(Run(qr, prefix), qr, a);
    } else {
      n := Disagrees(qr, prefix);
      assert run[..n] == prefix[..n];
    }
  }

  /** Along a crash-free run the log agrees with the tickets iff no used ticket is ever refunded. */
  lemma {:induction false} AgreesIffUsedSpared(qr: Sync.Qr, run: seq<Action>)
    requires CrashFree(run)
    ensures (forall n | 0 <= n <= |run| :: LogAgrees(Run(qr, run[..n]))) <==> Spares(qr, run, Used)
  {
    if Spares(qr, run, Used) {
      forall n | 0 <= n <= |run| ensures LogAgrees(Run(qr, run[..n])) {
        SparesPrefix(qr, run, n, Used);
        RunAgrees(qr, run[..n]);
      }
    } else {
      var n := Disagrees(qr, run);
    }
  }

  /** The analytics query for tickets used after their expiry never returns a row. */
  lemma {:induction false} NeverUsedAfterExpiry(qr: Sync.Qr, run: seq<Action>)
    ensures var db := Run(qr, run);
            forall t | t in db.tickets && db.tickets[t].usedAt.Some? ::
              db.tickets[t].usedAt.value <= db.tickets[t].expiresAt
  {
    RunKeepsBooks(qr, run);
  }

  /** The row is as it was, except that its recorded use may have moved to an earlier time. */
  predicate StaysUsed(before: Ticket, after: Ticket)
    requires before.usedAt.Some?
  {
    && after.usedAt.Some?
    && after.usedAt.value <= before.usedAt.value
    && after == before.(usedAt := after.usedAt)
  }

  /** A used ticket stays used, with its use only ever moving to an earlier time, unless it is refunded. */
  lemma {:induction false} UsedIsLeftIffRefunded(db: Db, qr: Sync.Qr, a: Action, t: TicketId)
    requires Ticketed(db, false) && t in db.tickets && db.tickets[t].status == Used
    ensures t in Step(db, qr, a).tickets
    ensures StaysUsed(db.tickets[t], Step(db, qr, a).tickets[t]) <==> !(a.ExpireTicket? && a.t == t)
  {
    if a.Validate? {
      ValidatedRows(db, qr, a.request, a.trip);
    } else if a.SyncScan? {
      Convergence.DeliverEffect(db, a.delivery);
    }
  }

  // ---- The log as the memory of synchronisation ----

  lemma {:induction false} StepAppends(db: Db, qr: Sync.Qr, a: Action)
    ensures db.events <= Step(db, qr, a).events
    ensures db.tickets.Keys <= Step(db, qr, a).tickets.Keys
    ensures Resend.OneEventPerScan(db.events) ==> Resend.OneEventPerScan(Step(db, qr, a).events)
  {
    if a.SyncScan? && Resend.OneEventPerScan(db.events) {
      Resend.DeliverKeepsOneEvent(db, a.delivery);
    }
  }

  lemma {:induction false} ContinueAppends(db: Db, qr: Sync.Qr, run: seq<Action>)
    requires Resend.OneEventPerScan(db.events)
    ensures db.events <= Continue(db, qr, run).events
    ensures db.tickets.Keys <= Continue(db, qr, run).tickets.Keys
    ensures Resend.OneEventPerScan(Continue(db, qr, run).events)
  {
    if run != [] {
      var mid := Continue(db, qr, run[..|run| - 1]);
      ContinueAppends(db, qr, run[..|run| - 1]);
      StepAppends(mid, qr, run[|run| - 1]);
    }
  }

  lemma {:induction false} RefundedHaveWallets(db: Db)
    requires Ticketed(db, false)
    ensures Convergence.RefundsHaveWallets(db)
  {
  }

  /**
   In the running system: deliver scans in a reachable state, let anything happen, deliver the same
   scans again - nothing changes.
   */
  lemma {:induction false} ResendIsIdle(
    qr: Sync.Qr, before: seq<Action>, first: seq<Sync.Delivery>, between: seq<Action>, again: seq<Sync.Delivery>)
    requires forall i | 0 <= i < |first| :: first[i].scan.ticket in Run(qr, before).tickets && !first[i].torn
    requires Convergence.Scans(again) <= Convergence.Scans(first)
    ensures var later := Continue(Sync.DeliverAll(Run(qr, before), first), qr, between);
            Sync.DeliverAll(later, again) == later
  {
    var db := Run(qr, before);
    RunRows(qr, before);
    RefundedHaveWallets(db);
    ContinueAppends(EMPTY, qr, before);
    DeliverAllKeepsOneEvent(db, first);
    ContinueAppends(Sync.DeliverAll(db, first), qr, between);
    Resend.ResendChangesNothing(db, first, Continue(Sync.DeliverAll(db, first), qr, between), again);
  }

  lemma {:induction false} DeliverAllKeepsOneEvent(db: Db, ds: seq<Sync.Delivery>)
    requires Resend.OneEventPerScan(db.events)
    ensures Resend.OneEventPerScan(Sync.DeliverAll(db, ds).events)
  {
    if ds != [] {
      DeliverAllKeepsOneEvent(db, ds[..|ds| - 1]);
      Resend.DeliverKeepsOneEvent(Sync.DeliverAll(db, ds[..|ds| - 1]), ds[|ds| - 1]);
    }
  }
}
