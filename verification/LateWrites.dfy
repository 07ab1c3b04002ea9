/**
 Four interleavings in which a write by id comes too late: a refund after the boarding scan was
 synchronised, a refund after another run of the job, the write of a boarding scan after a refund, and
 the reversal of a refund after another attempt at the same scan.
 */
module LateWrites {
  import opened Wrappers
  import opened Store
  import opened SingleWinner
  import opened Overlaps
  import Books
  import Steps
  import Wallet
  import Tickets
  import Sync
  import Expiry

  const LATE := Tickets.TICKET_EXPIRY_MS + 1

  lemma {:induction false} RunPush(run: seq<Action>, a: Action)
    ensures Run(run + [a]) == Apply(Run(run), a)
    ensures Excess(run + [a]) == Excess(run) + Surplus(Run(run), a)
    ensures AptRun(run + [a]) <==> AptRun(run) && AptStep(Run(run), a)
  {
    assert (run + [a])[..|run|] == run;
  }

  /** No writes by id. */
  predicate Quiet(run: seq<Action>) {
    forall i | 0 <= i < |run| :: !run[i].OfflineWrite? && !run[i].JobRefund?
  }

  lemma {:induction false} QuietIsApt(run: seq<Action>)
    requires Quiet(run)
    ensures Excess(run) == 0 && AptRun(run)
  {
    if run != [] {
      QuietIsApt(run[..|run| - 1]);
    }
  }

  function ToppedUp(u: UserId, ref: Ref, key: Key): seq<Action> {
    [Register(u)] + [InitiateTopup(u, 100, ref, key)] + [Webhook(0, true)]
  }

  /** The ticket is bought at time 0, and job `j` reads its list when the ticket has expired. */
  function Listed(u: UserId, t: TicketId, j: ProcId, ref: Ref, topup: Key, key: Key): seq<Action> {
    ToppedUp(u, ref, topup) + [Purchase(u, 100, t, key, 0)] + [JobRead(j, LATE)]
  }

  lemma {:induction false} AfterTopup(u: UserId, ref: Ref, key: Key)
    ensures var s := Run(ToppedUp(u, ref, key));
            && s == START.(db := s.db)
            && s.db.balances == map[u := 100] && s.db.tickets == map[] && s.db.events == []
            && |s.db.ledger| == 1 && s.db.ledger[0].key == Some(key)
  {
    var r1 := [Register(u)];
    var r2 := r1 + [InitiateTopup(u, 100, ref, key)];
    RunPush([], r1[0]);
    assert [] + [r1[0]] == r1;
    assert Run(r1).db == EMPTY.(balances := map[u := 0]);
    RunPush(r1, InitiateTopup(u, 100, ref, key));
    assert Run(r2).db.ledger == [Wallet.TopupRow(u, 100, ref, key)];
    RunPush(r2, Webhook(0, true));
  }

  /** One ticket, just bought for all the money there was, overdue and on the list of job `j`. */
  predicate IsListed(s: System, u: UserId, t: TicketId, j: ProcId) {
    && s == START.(db := s.db, jobs := map[j := {t}])
    && s.db.balances == map[u := 0] && s.db.events == []
    && s.db.tickets == map[t := Tickets.NewTicket(u, 100, 0)]
  }

  lemma {:induction false} ListedFrom(s: System, u: UserId, t: TicketId, j: ProcId, topup: Key, key: Key)
    requires topup != key && s == START.(db := s.db)
    requires s.db.balances == map[u := 100] && s.db.tickets == map[] && s.db.events == []
    requires |s.db.ledger| == 1 && s.db.ledger[0].key == Some(topup)
    ensures IsListed(Apply(Apply(s, Purchase(u, 100, t, key, 0)), JobRead(j, LATE)), u, t, j)
  {
    var bought := Apply(s, Purchase(u, 100, t, key, 0));
    assert bought.db.tickets == map[t := Tickets.NewTicket(u, 100, 0)] && bought.db.balances == map[u := 0];
    assert Expiry.Overdue(bought.db, LATE) == {t};
  }

  lemma {:induction false} WhenListed(u: UserId, t: TicketId, j: ProcId, ref: Ref, topup: Key, key: Key)
    requires topup != key
    ensures IsListed(Run(Listed(u, t, j, ref, topup, key)), u, t, j)
    ensures Excess(Listed(u, t, j, ref, topup, key)) == 0 && AptRun(Listed(u, t, j, ref, topup, key))
  {
    var r3 := ToppedUp(u, ref, topup);
    AfterTopup(u, ref, topup);
    ListedFrom(Run(r3), u, t, j, topup, key);
    RunPush(r3, Purchase(u, 100, t, key, 0));
    RunPush(r3 + [Purchase(u, 100, t, key, 0)], JobRead(j, LATE));
    QuietIsApt(Listed(u, t, j, ref, topup, key));
  }

  // ---- Single steps ----

  lemma {:induction false} Refunding(s: System, j: ProcId, t: TicketId)
    requires j in s.jobs && t in s.jobs[j] && t in s.db.tickets && s.db.tickets[t].passenger in s.db.balances
    ensures var row, after := s.db.tickets[t], Apply(s, JobRefund(j, t, LATE));
            && after == s.(db := after.db, jobs := s.jobs[j := s.jobs[j] - {t}])
            && after.db.tickets == s.db.tickets[t := Expiry.AsRefunded(row, LATE)]
            && after.db.balances == s.db.balances[row.passenger := s.db.balances[row.passenger] + row.fare]
            && after.db.events == s.db.events
            && Surplus(s, JobRefund(j, t, LATE)) == if row.status == Refunded then row.fare else 0
  {
  }

  lemma {:induction false} Reading(s: System, p: ProcId, d: Sync.Delivery)
    requires p !in s.offline && d.scan.ticket in s.db.tickets && s.db.events == []
    ensures var v := Sync.Judge(s.db.tickets[d.scan.ticket], d.scan.scannedAt, d.scan.isInspection);
            && Apply(s, OfflineRead(p, d)) == s.(offline := s.offline[p := Offline(d, v, false)])
            && Surplus(s, OfflineRead(p, d)) == 0
  {
  }

  lemma {:induction false} Writing(s: System, p: ProcId)
    requires IsWrite(s, OfflineWrite(p)) && Target(s, OfflineWrite(p)).passenger in s.db.balances
    ensures var o, row, after := s.offline[p], Target(s, OfflineWrite(p)), Apply(s, OfflineWrite(p));
            var t, write := o.delivery.scan.ticket, o.verdict.write;
            && after == s.(db := after.db, offline := s.offline[p := o.(written := true)])
            && after.db.tickets == s.db.tickets[t := Sync.RowAfter(row, o.delivery.scan.scannedAt, write)]
            && after.db.balances ==
                 (if write == Sync.ReverseRefund
                  then s.db.balances[row.passenger := s.db.balances[row.passenger] - row.fare] else s.db.balances)
            && after.db.events == s.db.events
            && Surplus(s, OfflineWrite(p)) == Steps.WriteSurplus(row, write)
  {
  }

  function Boarding(t: TicketId, driver: UserId): Sync.Delivery {
    Sync.Delivery(Sync.Presented(t, driver, 10, false), LATE, None, false)
  }

  // ---- Late refunds ----

  lemma {:induction false} UsedFrom(s: System, u: UserId, driver: UserId, t: TicketId, j: ProcId, p: ProcId)
    requires IsListed(s, u, t, j)
    ensures var written := Apply(Apply(s, OfflineRead(p, Boarding(t, driver))), OfflineWrite(p));
            var used := Apply(written, OfflineLog(p));
            var late := Apply(used, JobRefund(j, t, LATE));
            var row := Tickets.NewTicket(u, 100, 0).(status := Used, usedAt := Some(10));
            && used.db.tickets == map[t := row]
            && late.db.tickets == map[t := Expiry.AsRefunded(row, LATE)] && late.db.balances == map[u := 100]
  {
    var read := Apply(s, OfflineRead(p, Boarding(t, driver)));
    var written := Apply(read, OfflineWrite(p));
    Reading(s, p, Boarding(t, driver));
    Writing(read, p);
    Refunding(Apply(written, OfflineLog(p)), j, t);
  }

  /** The boarding scan is synchronised while the job holds its list; the ride is refunded all the same. */
  lemma {:induction false} UsedTicketIsRefunded(
    u: UserId, driver: UserId, t: TicketId, j: ProcId, p: ProcId, ref: Ref, topup: Key, key: Key)
    requires topup != key
    ensures var used := Listed(u, t, j, ref, topup, key)
                      + [OfflineRead(p, Boarding(t, driver))] + [OfflineWrite(p)] + [OfflineLog(p)];
            var late := used + [JobRefund(j, t, LATE)];
            && t in Run(used).db.tickets && Run(used).db.tickets[t].status == Used
            && t in Run(late).db.tickets && Run(late).db.tickets[t].status == Refunded
            && Run(late).db.tickets[t].usedAt == Some(10)
            && Run(late).db.balances == map[u := 100]
  {
    var r0 := Listed(u, t, j, ref, topup, key);
    var r1 := r0 + [OfflineRead(p, Boarding(t, driver))];
    var r2 := r1 + [OfflineWrite(p)];
    var r3 := r2 + [OfflineLog(p)];
    WhenListed(u, t, j, ref, topup, key);
    UsedFrom(Run(r0), u, driver, t, j, p);
    RunPush(r0, OfflineRead(p, Boarding(t, driver)));
    RunPush(r1, OfflineWrite(p));
    RunPush(r2, OfflineLog(p));
    RunPush(r3, JobRefund(j, t, LATE));
  }

  lemma {:induction false} TwiceRefundedFrom(s: System, u: UserId, t: TicketId, j: ProcId, k: ProcId)
    requires IsListed(s, u, t, j) && j != k
    ensures var both := Apply(s, JobRead(k, LATE));
            var once := Apply(both, JobRefund(j, t, LATE));
            && Apply(once, JobRefund(k, t, LATE)).db.balances == map[u := 200]
            && Surplus(s, JobRead(k, LATE)) == 0
            && Surplus(both, JobRefund(j, t, LATE)) == 0 && Surplus(once, JobRefund(k, t, LATE)) == 100
  {
    var both := Apply(s, JobRead(k, LATE));
    assert Expiry.Overdue(s.db, LATE) == {t};
    Refunding(both, j, t);
    Refunding(Apply(both, JobRefund(j, t, LATE)), k, t);
  }

  /** Two overlapping runs of the job hold the same list: the fare is paid out twice. */
  lemma {:induction false} TicketIsRefundedTwice(
    u: UserId, t: TicketId, j: ProcId, k: ProcId, ref: Ref, topup: Key, key: Key)
    requires topup != key && j != k
    ensures var twice := Listed(u, t, j, ref, topup, key)
                       + [JobRead(k, LATE)] + [JobRefund(j, t, LATE)] + [JobRefund(k, t, LATE)];
            && Run(twice).db.balances == map[u := 200]
            && Books.Conserved(Run(twice).db, 100)
  {
    var r0 := Listed(u, t, j, ref, topup, key);
    var r1 := r0 + [JobRead(k, LATE)];
    var r2 := r1 + [JobRefund(j, t, LATE)];
    WhenListed(u, t, j, ref, topup, key);
    TwiceRefundedFrom(Run(r0), u, t, j, k);
    RunPush(r0, JobRead(k, LATE));
    RunPush(r1, JobRefund(j, t, LATE));
    RunPush(r2, JobRefund(k, t, LATE));
    RunKeepsBooks(r2 + [JobRefund(k, t, LATE)]);
  }

  // ---- Late ticket writes of scans ----

  lemma {:induction false} BoardedFrom(s: System, u: UserId, driver: UserId, t: TicketId, j: ProcId, p: ProcId)
    requires IsListed(s, u, t, j)
    ensures var read := Apply(s, OfflineRead(p, Boarding(t, driver)));
            var refunded := Apply(read, JobRefund(j, t, LATE));
            var late := Apply(refunded, OfflineWrite(p));
            && late.db.tickets == map[t := Tickets.NewTicket(u, 100, 0).(
                 status := Used, usedAt := Some(10), refundedAt := Some(LATE))]
            && late.db.balances == map[u := 100]
            && AptStep(s, OfflineRead(p, Boarding(t, driver))) && AptStep(read, JobRefund(j, t, LATE))
            && Surplus(s, OfflineRead(p, Boarding(t, driver))) == 0
            && Surplus(read, JobRefund(j, t, LATE)) == 0 && Surplus(refunded, OfflineWrite(p)) == 100
  {
    var read := Apply(s, OfflineRead(p, Boarding(t, driver)));
    Reading(s, p, Boarding(t, driver));
    Refunding(read, j, t);
    Writing(Apply(read, JobRefund(j, t, LATE)), p);
  }

  /** A boarding scan is decided on before the refund and written after it: the refund stays paid. */
  lemma {:induction false} RefundSurvivesBoarding(
    u: UserId, driver: UserId, t: TicketId, j: ProcId, p: ProcId, ref: Ref, topup: Key, key: Key)
    requires topup != key
    ensures var refunded := Listed(u, t, j, ref, topup, key)
                          + [OfflineRead(p, Boarding(t, driver))] + [JobRefund(j, t, LATE)];
            var late := refunded + [OfflineWrite(p)];
            && t in Run(late).db.tickets && Run(late).db.tickets[t].status == Used
            && Run(late).db.tickets[t].refundedAt == Some(LATE)
            && Run(late).db.balances == map[u := 100]
            && AptRun(refunded) && Books.Conserved(Run(late).db, 100)
  {
    var r0 := Listed(u, t, j, ref, topup, key);
    var r1 := r0 + [OfflineRead(p, Boarding(t, driver))];
    var r2 := r1 + [JobRefund(j, t, LATE)];
    WhenListed(u, t, j, ref, topup, key);
    BoardedFrom(Run(r0), u, driver, t, j, p);
    RunPush(r0, OfflineRead(p, Boarding(t, driver)));
    RunPush(r1, JobRefund(j, t, LATE));
    RunPush(r2, OfflineWrite(p));
    RunKeepsBooks(r2 + [OfflineWrite(p)]);
  }

  lemma {:induction false} BothReadFrom(s: System, u: UserId, driver: UserId, t: TicketId, j: ProcId, p: ProcId, q: ProcId)
    requires IsListed(s, u, t, j) && p != q
    ensures var refunded := Apply(s, JobRefund(j, t, LATE));
            var read := Apply(refunded, OfflineRead(p, Boarding(t, driver)));
            var both := Apply(read, OfflineRead(q, Boarding(t, driver)));
            var o := Offline(Boarding(t, driver), Sync.Verdict(Sync.ReverseRefund, Valid, Sync.MarkedUsed), false);
            && both == refunded.(offline := map[p := o, q := o])
            && both.db.tickets == map[t := Expiry.AsRefunded(Tickets.NewTicket(u, 100, 0), LATE)]
            && both.db.balances == map[u := 100]
            && Surplus(s, JobRefund(j, t, LATE)) == 0
            && Surplus(refunded, OfflineRead(p, Boarding(t, driver))) == 0
            && Surplus(read, OfflineRead(q, Boarding(t, driver))) == 0
  {
    var refunded := Apply(s, JobRefund(j, t, LATE));
    Refunding(s, j, t);
    Reading(refunded, p, Boarding(t, driver));
    Reading(Apply(refunded, OfflineRead(p, Boarding(t, driver))), q, Boarding(t, driver));
  }

  lemma {:induction false} BothWrite(both: System, u: UserId, driver: UserId, t: TicketId, p: ProcId, q: ProcId)
    requires p != q && p in both.offline && q in both.offline
    requires both.offline[p] == both.offline[q]
          == Offline(Boarding(t, driver), Sync.Verdict(Sync.ReverseRefund, Valid, Sync.MarkedUsed), false)
    requires both.db.tickets == map[t := Expiry.AsRefunded(Tickets.NewTicket(u, 100, 0), LATE)]
    requires both.db.balances == map[u := 100]
    ensures var once := Apply(both, OfflineWrite(p));
            && once.db.tickets == map[t := Tickets.NewTicket(u, 100, 0).(status := Used, usedAt := Some(10))]
            && once.db.balances == map[u := 0] && Apply(once, OfflineWrite(q)).db.balances == map[u := -100]
            && Surplus(both, OfflineWrite(p)) == 0 && Surplus(once, OfflineWrite(q)) == -100
  {
    Writing(both, p);
    Writing(Apply(both, OfflineWrite(p)), q);
  }

  /** Two overlapping attempts at one scan both see the refund, and both take it back. */
  lemma {:induction false} RefundIsTakenBackTwice(
    u: UserId, driver: UserId, t: TicketId, j: ProcId, p: ProcId, q: ProcId, ref: Ref, topup: Key, key: Key)
    requires topup != key && p != q
    ensures var once := Listed(u, t, j, ref, topup, key) + [JobRefund(j, t, LATE)]
                      + [OfflineRead(p, Boarding(t, driver))] + [OfflineRead(q, Boarding(t, driver))] + [OfflineWrite(p)];
            var twice := once + [OfflineWrite(q)];
            && t in Run(once).db.tickets && Run(once).db.tickets[t].status == Used
            && Run(once).db.balances == map[u := 0]
            && Run(twice).db.balances == map[u := -100]
            && Books.Conserved(Run(twice).db, -100)
  {
    var r0 := Listed(u, t, j, ref, topup, key);
    var r1 := r0 + [JobRefund(j, t, LATE)];
    var r2 := r1 + [OfflineRead(p, Boarding(t, driver))];
    var r3 := r2 + [OfflineRead(q, Boarding(t, driver))];
    var r4 := r3 + [OfflineWrite(p)];
    WhenListed(u, t, j, ref, topup, key);
    BothReadFrom(Run(r0), u, driver, t, j, p, q);
    RunPush(r0, JobRefund(j, t, LATE));
    RunPush(r1, OfflineRead(p, Boarding(t, driver)));
    RunPush(r2, OfflineRead(q, Boarding(t, driver)));
    BothWrite(Run(r3), u, driver, t, p, q);
    RunPush(r3, OfflineWrite(p));
    RunPush(r4, OfflineWrite(q));
    RunKeepsBooks(r4 + [OfflineWrite(q)]);
  }
}
