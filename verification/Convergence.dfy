/**
 Offline sync in closed form: the ticket rows and wallet balances that any sequence of deliveries
 leaves, with any repetition and any crashes, computed from the deliveries alone.

 The log holds one event for each ticket, driver and scan time.  So a boarding scan is hidden if an
 inspection by that driver at that instant is logged first, and applies otherwise.
 */
module Convergence {
  import opened Wrappers
  import opened Store
  import opened Totals
  import opened Sync

  /** Refunds can only be taken back from wallets that exist. */
  predicate RefundsHaveWallets(db: Db) {
    forall t | t in db.tickets && db.tickets[t].status == Refunded :: db.tickets[t].passenger in db.balances
  }

  function Scans(ds: seq<Delivery>): set<Presented> {
    set d | d in ds :: d.scan
  }

  /** The scans of complete deliveries: those that leave an event. */
  function Complete(ds: seq<Delivery>): set<Presented> {
    set d | d in ds && !d.torn :: d.scan
  }

  predicate Twins(a: Presented, b: Presented) {
    a.ticket == b.ticket && a.driver == b.driver && a.scannedAt == b.scannedAt
  }

  /** A fresh, in-time boarding scan of `t`, judged from the state before the run. */
  predicate Boards(db: Db, p: Presented, t: TicketId) {
    && t in db.tickets
    && p.ticket == t && !p.isInspection
    && p.scannedAt <= db.tickets[t].expiresAt
    && !Logged(db.events, p)
  }

  /** A complete delivery of an inspection that has `p`'s place in the log. */
  predicate Hides(d: Delivery, p: Presented) {
    !d.torn && d.scan == p.(isInspection := true)
  }

  predicate Unhidden(ds: seq<Delivery>, p: Presented) {
    forall d | d in ds :: !Hides(d, p)
  }

  /** The boarding scan `p` gets through: at one of its deliveries, torn or not, nothing hides it yet. */
  predicate Applies(ds: seq<Delivery>, p: Presented) {
    exists i | 0 <= i < |ds| :: ds[i].scan == p && Unhidden(ds[..i], p)
  }

  function AppliedTimes(db: Db, ds: seq<Delivery>, t: TicketId): set<int> {
    set d | d in ds && Boards(db, d.scan, t) && Applies(ds, d.scan) :: d.scan.scannedAt
  }

  /** Times at which the ticket is known to have been used: by the new scans or by its row. */
  function UseTimes(ticket: Ticket, times: set<int>): set<int> {
    times + if ticket.status == Used && ticket.usedAt.Some? then {ticket.usedAt.value} else {}
  }

  predicate IsLeast(m: int, s: set<int>) {
    m in s && forall x | x in s :: m <= x
  }

  /** The final row of a ticket: untouched without boarding scans, else used at the earliest time. */
  predicate Settles(before: Ticket, times: set<int>, after: Ticket) {
    if times == {} then after == before
    else
      && after.usedAt.Some?
      && IsLeast(after.usedAt.value, UseTimes(before, times))
      && after == before.(
           status := Used,
           usedAt := after.usedAt,
           refundedAt := if before.status == Refunded then None else before.refundedAt)
  }

  /** Fares of `u`'s tickets that were REFUNDED in `before` and no longer are in `after`. */
  function Reversed(before: Db, after: Db, u: UserId): map<TicketId, int> {
    map t | t in before.tickets && t in after.tickets
         && before.tickets[t].status == Refunded && after.tickets[t].status != Refunded
         && before.tickets[t].passenger == u :: before.tickets[t].fare
  }

  ghost predicate Converged(db: Db, ds: seq<Delivery>, after: Db) {
    && after.tickets.Keys == db.tickets.Keys
    && (forall t | t in db.tickets :: Settles(db.tickets[t], AppliedTimes(db, ds, t), after.tickets[t]))
    && after.balances.Keys == db.balances.Keys
    && (forall u | u in db.balances :: after.balances[u] == db.balances[u] - Total(Reversed(db, after, u)))
  }

  /** The log grows only, and what is new in it stems from complete deliveries. */
  ghost predicate LogFrom(db: Db, ds: seq<Delivery>, after: Db) {
    && db.events <= after.events
    && forall p: Presented | Logged(after.events, p) && !Logged(db.events, p) ::
         exists i | 0 <= i < |ds| :: !ds[i].torn && Twins(ds[i].scan, p)
  }

  lemma {:induction false} LoggedMonotone(events: seq<ScanEvent>, more: seq<ScanEvent>, p: Presented)
    requires events <= more && Logged(events, p)
    ensures Logged(more, p)
  {
    var i :| 0 <= i < |events| && SameScan(events[i], p);
    assert SameScan(more[i], p);
  }

  lemma {:induction false} DeliverLog(db: Db, ds: seq<Delivery>, mid: Db, d: Delivery)
    requires LogFrom(db, ds, mid)
    ensures LogFrom(db, ds + [d], Deliver(mid, d))
  {
    var after := Deliver(mid, d);
    var all := ds + [d];
    assert after.events == mid.events
        || (!d.torn && |after.events| == |mid.events| + 1 && after.events[..|mid.events|] == mid.events
            && Twins(d.scan, Presented(after.events[|mid.events|].ticket, after.events[|mid.events|].driver,
                                       after.events[|mid.events|].scannedAt, false)));
    forall p: Presented | Logged(after.events, p) && !Logged(db.events, p)
      ensures exists i | 0 <= i < |all| :: !all[i].torn && Twins(all[i].scan, p)
    {
      if Logged(mid.events, p) {
        var i :| 0 <= i < |ds| && !ds[i].torn && Twins(ds[i].scan, p);
        assert all[i] == ds[i];
      } else {
        assert all[|ds|] == d;
      }
    }
  }

  // ---- Which scans apply ----

  lemma {:induction false} AppliesConcat(a: seq<Delivery>, b: seq<Delivery>, p: Presented)
    ensures Applies(a + b, p) <==> Applies(a, p) || (Unhidden(a, p) && Applies(b, p))
  {
    var all := a + b;
    if i :| 0 <= i < |all| && all[i].scan == p && Unhidden(all[..i], p) {
      if i < |a| {
        assert all[..i] == a[..i];
      } else {
        assert all[..i] == a + b[..i - |a|];
        assert b[i - |a|].scan == p;
      }
    }
    if i :| 0 <= i < |a| && a[i].scan == p && Unhidden(a[..i], p) {
      assert all[..i] == a[..i] && all[i] == a[i];
    }
    if j :| 0 <= j < |b| && b[j].scan == p && Unhidden(b[..j], p) && Unhidden(a, p) {
      assert all[..|a| + j] == a + b[..j] && all[|a| + j] == b[j];
    }
  }

  lemma {:induction false} AppliesOne(d: Delivery, p: Presented)
    ensures Applies([d], p) <==> d.scan == p
  {
    if d.scan == p {
      assert [d][..0] == [] && [d][0].scan == p;
    }
  }

  /** One more delivery adds the time of its scan, unless an inspection hides it. */
  lemma {:induction false} AppliedPush(db: Db, ds: seq<Delivery>, d: Delivery, t: TicketId)
    ensures AppliedTimes(db, ds + [d], t)
         == AppliedTimes(db, ds, t)
          + if Boards(db, d.scan, t) && Unhidden(ds, d.scan) then {d.scan.scannedAt} else {}
  {
    var all := ds + [d];
    forall p ensures Applies(all, p) <==> Applies(ds, p) || (d.scan == p && Unhidden(ds, p)) {
      AppliesConcat(ds, [d], p);
      AppliesOne(d, p);
    }
    forall x | x in AppliedTimes(db, ds, t) ensures x in AppliedTimes(db, all, t) {
      var e :| e in ds && Boards(db, e.scan, t) && Applies(ds, e.scan) && e.scan.scannedAt == x;
      assert e in all;
    }
    forall x | x in AppliedTimes(db, all, t) && x !in AppliedTimes(db, ds, t)
      ensures x == d.scan.scannedAt && Boards(db, d.scan, t) && Unhidden(ds, d.scan)
    {
      var e :| e in all && Boards(db, e.scan, t) && Applies(all, e.scan) && e.scan.scannedAt == x;
    }
    assert d in all;
  }

  // ---- The log ----

  /** Every complete delivery about a known ticket has its scan logged. */
  ghost predicate LogTo(db: Db, ds: seq<Delivery>, after: Db) {
    forall d | d in ds && !d.torn && d.scan.ticket in db.tickets :: Logged(after.events, d.scan)
  }

  lemma {:induction false} DeliverKeepsWallets(db: Db, d: Delivery)
    requires RefundsHaveWallets(db)
    ensures RefundsHaveWallets(Deliver(db, d))
    ensures Deliver(db, d).tickets.Keys == db.tickets.Keys
    ensures db.events <= Deliver(db, d).events
  {
    DeliverEffect(db, d);
  }

  lemma {:induction false} DeliverLogs(db: Db, d: Delivery)
    requires RefundsHaveWallets(db) && d.scan.ticket in db.tickets && !d.torn
    ensures Logged(Deliver(db, d).events, d.scan)
  {
    var after := Deliver(db, d);
    if !Logged(db.events, d.scan) {
      assert SameScan(after.events[|db.events|], d.scan);
    }
  }

  lemma {:induction false} RunGrows(db: Db, ds: seq<Delivery>)
    requires RefundsHaveWallets(db)
    ensures RefundsHaveWallets(DeliverAll(db, ds))
    ensures DeliverAll(db, ds).tickets.Keys == db.tickets.Keys
    ensures db.events <= DeliverAll(db, ds).events
  {
    if ds != [] {
      RunGrows(db, ds[..|ds| - 1]);
      DeliverKeepsWallets(DeliverAll(db, ds[..|ds| - 1]), ds[|ds| - 1]);
    }
  }

  lemma {:induction false} RunLogs(db: Db, ds: seq<Delivery>)
    requires RefundsHaveWallets(db)
    ensures LogTo(db, ds, DeliverAll(db, ds)) && LogFrom(db, ds, DeliverAll(db, ds))
  {
    if ds != [] {
      var prefix, last := ds[..|ds| - 1], ds[|ds| - 1];
      var mid := DeliverAll(db, prefix);
      assert ds == prefix + [last];
      RunLogs(db, prefix);
      RunGrows(db, prefix);
      DeliverKeepsWallets(mid, last);
      DeliverLog(db, prefix, mid, last);
      forall d | d in ds && !d.torn && d.scan.ticket in db.tickets
        ensures Logged(DeliverAll(db, ds).events, d.scan)
      {
        if d in prefix {
          LoggedMonotone(mid.events, DeliverAll(db, ds).events, d.scan);
        } else {
          DeliverLogs(mid, d);
        }
      }
    }
  }

  lemma {:induction false} LoggedTwins(events: seq<ScanEvent>, a: Presented, b: Presented)
    requires Twins(a, b)
    ensures Logged(events, a) == Logged(events, b)
  {
    assert forall i | 0 <= i < |events| :: SameScan(events[i], a) == SameScan(events[i], b);
  }

  /** A boarding scan that is not hidden and yet logged has applied before. */
  lemma {:induction false} LoggedHasApplied(db: Db, ds: seq<Delivery>, mid: Db, d: Delivery, t: TicketId)
    requires LogFrom(db, ds, mid) && Logged(mid.events, d.scan)
    ensures AppliedTimes(db, ds + [d], t) == AppliedTimes(db, ds, t)
  {
    AppliedPush(db, ds, d, t);
    if Boards(db, d.scan, t) && Unhidden(ds, d.scan) {
      var i :| 0 <= i < |ds| && !ds[i].torn && Twins(ds[i].scan, d.scan);
      assert ds[i].scan.isInspection ==> Hides(ds[i], d.scan);
      assert ds[i].scan == d.scan;
      assert Unhidden(ds[..i], d.scan);
      assert ds[i] in ds && Applies(ds, ds[i].scan);
    }
  }

  /** A boarding scan that is not logged yet is not hidden either. */
  lemma {:induction false} UnloggedApplies(db: Db, ds: seq<Delivery>, mid: Db, d: Delivery, t: TicketId)
    requires LogTo(db, ds, mid) && db.events <= mid.events && !Logged(mid.events, d.scan)
    requires t in db.tickets && d.scan.ticket == t
    ensures AppliedTimes(db, ds + [d], t)
         == AppliedTimes(db, ds, t)
          + if !d.scan.isInspection && d.scan.scannedAt <= db.tickets[t].expiresAt then {d.scan.scannedAt} else {}
  {
    AppliedPush(db, ds, d, t);
    if Logged(db.events, d.scan) {
      LoggedMonotone(db.events, mid.events, d.scan);
    }
    forall e | e in ds ensures !Hides(e, d.scan) {
      if Logged(mid.events, e.scan) && Twins(e.scan, d.scan) {
        LoggedTwins(mid.events, e.scan, d.scan);
      }
    }
  }

  // ---- The effect of a delivery ----

  /** The whole effect of a delivery on tickets and balances. */
  lemma {:induction false} DeliverEffect(db: Db, d: Delivery)
    ensures var p, after := d.scan, Deliver(db, d);
            if p.ticket !in db.tickets || Logged(db.events, p) then after == db
            else
              var row := db.tickets[p.ticket];
              var write := Judge(row, p.scannedAt, p.isInspection).write;
              if write == ReverseRefund && row.passenger !in db.balances then after == db
              else
                && after.tickets == db.tickets[p.ticket := RowAfter(row, p.scannedAt, write)]
                && after.balances == if write != ReverseRefund then db.balances
                                     else db.balances[row.passenger := db.balances[row.passenger] - row.fare]
  {
  }

  lemma {:induction false} RowSettles(before: Ticket, times: set<int>, mid: Ticket, at: int, isInspection: bool)
    requires Settles(before, times, mid)
    ensures Settles(before,
                    times + if !isInspection && at <= before.expiresAt then {at} else {},
                    RowAfter(mid, at, Judge(mid, at, isInspection).write))
  {
  }

  /** The delivered ticket's own row. */
  lemma {:induction false} DeliveredRowSettles(db: Db, ds: seq<Delivery>, mid: Db, d: Delivery)
    requires Converged(db, ds, mid) && LogFrom(db, ds, mid) && LogTo(db, ds, mid) && RefundsHaveWallets(db)
    requires d.scan.ticket in db.tickets && d.scan.ticket in Deliver(mid, d).tickets
    ensures Settles(db.tickets[d.scan.ticket], AppliedTimes(db, ds + [d], d.scan.ticket),
                    Deliver(mid, d).tickets[d.scan.ticket])
  {
    var p, t, row := d.scan, d.scan.ticket, db.tickets[d.scan.ticket];
    DeliverEffect(mid, d);
    if Logged(mid.events, p) {
      LoggedHasApplied(db, ds, mid, d, t);
    } else {
      UnloggedApplies(db, ds, mid, d, t);
      RowSettles(row, AppliedTimes(db, ds, t), mid.tickets[t], p.scannedAt, p.isInspection);
    }
  }

  lemma {:induction false} OtherRowSettles(db: Db, ds: seq<Delivery>, mid: Db, d: Delivery, t: TicketId)
    requires Converged(db, ds, mid) && t in db.tickets && t != d.scan.ticket
    requires t in Deliver(mid, d).tickets
    ensures Settles(db.tickets[t], AppliedTimes(db, ds + [d], t), Deliver(mid, d).tickets[t])
  {
    DeliverEffect(mid, d);
    AppliedPush(db, ds, d, t);
  }

  lemma {:induction false} StillRefunded(before: Ticket, times: set<int>, mid: Ticket)
    requires Settles(before, times, mid) && mid.status == Refunded
    ensures mid == before
  {
  }

  /** Taking back one more refund adds exactly that ticket to the reversed ones. */
  lemma {:induction false} ReversedAdd(db: Db, mid: Db, after: Db, t: TicketId, row: Ticket, u: UserId)
    requires t in db.tickets && t in mid.tickets && mid.tickets[t] == db.tickets[t]
    requires db.tickets[t].status == Refunded && row.status != Refunded
    requires after.tickets == mid.tickets[t := row]
    ensures Total(Reversed(db, after, u))
         == Total(Reversed(db, mid, u)) + if db.tickets[t].passenger == u then db.tickets[t].fare else 0
  {
    if db.tickets[t].passenger == u {
      assert Reversed(db, after, u) == Reversed(db, mid, u)[t := db.tickets[t].fare];
      TotalAdd(Reversed(db, mid, u), t, db.tickets[t].fare);
    } else {
      assert Reversed(db, after, u) == Reversed(db, mid, u);
    }
  }

  lemma {:induction false} ReversedSame(db: Db, mid: Db, after: Db, u: UserId)
    requires mid.tickets.Keys == after.tickets.Keys
    requires forall t | t in mid.tickets ::
      mid.tickets[t].status == Refunded <==> after.tickets[t].status == Refunded
    ensures Reversed(db, after, u) == Reversed(db, mid, u)
  {
  }

  /** A delivery takes a refund back, together with the ticket, or leaves balances and refunds alone. */
  predicate TakesBack(db: Db, d: Delivery) {
    && d.scan.ticket in db.tickets && db.tickets[d.scan.ticket].status == Refunded
    && d.scan.ticket in Deliver(db, d).tickets && Deliver(db, d).tickets[d.scan.ticket].status != Refunded
  }

  lemma {:induction false} DeliverKinds(db: Db, d: Delivery)
    ensures var t, after := d.scan.ticket, Deliver(db, d);
            if TakesBack(db, d) then
              var row := db.tickets[t];
              && row.passenger in db.balances
              && after.tickets == db.tickets[t := after.tickets[t]]
              && after.balances == db.balances[row.passenger := db.balances[row.passenger] - row.fare]
            else
              && after.balances == db.balances
              && after.tickets.Keys == db.tickets.Keys
              && forall x | x in db.tickets ::
                   db.tickets[x].status == Refunded <==> after.tickets[x].status == Refunded
  {
    DeliverEffect(db, d);
  }

  lemma {:induction false} BalanceSettles(db: Db, ds: seq<Delivery>, mid: Db, d: Delivery, u: UserId)
    requires Converged(db, ds, mid) && u in db.balances
    ensures var after := Deliver(mid, d);
            u in after.balances && after.balances[u] == db.balances[u] - Total(Reversed(db, after, u))
  {
    var t, after := d.scan.ticket, Deliver(mid, d);
    DeliverKinds(mid, d);
    if TakesBack(mid, d) {
      StillRefunded(db.tickets[t], AppliedTimes(db, ds, t), mid.tickets[t]);
      ReversedAdd(db, mid, after, t, after.tickets[t], u);
    } else {
      ReversedSame(db, mid, after, u);
    }
  }

  lemma {:induction false} DeliverKeys(db: Db, d: Delivery)
    ensures Deliver(db, d).tickets.Keys == db.tickets.Keys
    ensures Deliver(db, d).balances.Keys == db.balances.Keys
  {
    DeliverEffect(db, d);
  }

  lemma {:induction false} StepConverges(db: Db, ds: seq<Delivery>, mid: Db, d: Delivery)
    requires Converged(db, ds, mid) && LogFrom(db, ds, mid) && LogTo(db, ds, mid) && RefundsHaveWallets(db)
    ensures Converged(db, ds + [d], Deliver(mid, d))
  {
    DeliverKeys(mid, d);
    forall t | t in db.tickets
      ensures Settles(db.tickets[t], AppliedTimes(db, ds + [d], t), Deliver(mid, d).tickets[t])
    {
      if t == d.scan.ticket {
        DeliveredRowSettles(db, ds, mid, d);
      } else {
        OtherRowSettles(db, ds, mid, d, t);
      }
    }
    forall u | u in db.balances
      ensures Deliver(mid, d).balances[u] == db.balances[u] - Total(Reversed(db, Deliver(mid, d), u))
    {
      BalanceSettles(db, ds, mid, d, u);
    }
  }

  /** The state after any sequence of deliveries, in closed form. */
  lemma {:induction false} RunConverges(db: Db, ds: seq<Delivery>)
    requires RefundsHaveWallets(db)
    ensures Converged(db, ds, DeliverAll(db, ds))
  {
    if ds == [] {
      forall u | u in db.balances ensures Total(Reversed(db, db, u)) == 0 {
        assert Reversed(db, db, u) == map[];
      }
    } else {
      var prefix, d := ds[..|ds| - 1], ds[|ds| - 1];
      assert ds == prefix + [d];
      RunConverges(db, prefix);
      RunLogs(db, prefix);
      StepConverges(db, prefix, DeliverAll(db, prefix), d);
    }
  }

  // ---- What the outcome depends on ----

  predicate SameOutcome(db: Db, a: seq<Delivery>, b: seq<Delivery>) {
    && DeliverAll(db, a).tickets == DeliverAll(db, b).tickets
    && DeliverAll(db, a).balances == DeliverAll(db, b).balances
  }

  lemma {:induction false} SettlesUniquely(before: Ticket, times: set<int>, x: Ticket, y: Ticket)
    requires Settles(before, times, x) && Settles(before, times, y)
    ensures x == y
  {
  }

  /** Balances follow the tickets. */
  lemma {:induction false} SameTicketsSuffice(db: Db, a: seq<Delivery>, b: seq<Delivery>)
    requires RefundsHaveWallets(db) && DeliverAll(db, a).tickets == DeliverAll(db, b).tickets
    ensures SameOutcome(db, a, b)
  {
    var x, y := DeliverAll(db, a), DeliverAll(db, b);
    RunConverges(db, a);
    RunConverges(db, b);
    forall u | u in db.balances ensures x.balances[u] == y.balances[u] {
      assert Reversed(db, x, u) == Reversed(db, y, u);
    }
  }

  lemma {:induction false} AppliedWithin(db: Db, a: seq<Delivery>, b: seq<Delivery>, t: TicketId)
    requires forall p: Presented | !p.isInspection && Applies(a, p) :: Applies(b, p)
    ensures AppliedTimes(db, a, t) <= AppliedTimes(db, b, t)
  {
    forall x | x in AppliedTimes(db, a, t) ensures x in AppliedTimes(db, b, t) {
      var d :| d in a && Boards(db, d.scan, t) && Applies(a, d.scan) && d.scan.scannedAt == x;
      var i :| 0 <= i < |b| && b[i].scan == d.scan;
      assert b[i] in b;
    }
  }

  /** Sequences in which the same boarding scans apply end alike. */
  lemma {:induction false} AppliedDecide(db: Db, a: seq<Delivery>, b: seq<Delivery>)
    requires RefundsHaveWallets(db)
    requires forall p: Presented | !p.isInspection :: Applies(a, p) <==> Applies(b, p)
    ensures SameOutcome(db, a, b)
  {
    var x, y := DeliverAll(db, a), DeliverAll(db, b);
    RunConverges(db, a);
    RunConverges(db, b);
    forall t | t in db.tickets ensures x.tickets[t] == y.tickets[t] {
      AppliedWithin(db, a, b, t);
      AppliedWithin(db, b, a, t);
      SettlesUniquely(db.tickets[t], AppliedTimes(db, a, t), x.tickets[t], y.tickets[t]);
    }
    SameTicketsSuffice(db, a, b);
  }
}
