/**
 What sync and the expiry job guarantee in every reachable state of the running system, refunds that
 came late included: there the assumptions of the theorems about them hold by themselves.
 */
module Guarantees {
  import opened Wrappers
  import opened Store
  import opened Totals
  import opened Steps
  import opened Runs
  import Sync
  import Expiry
  import JobClock
  import Convergence
  import Resend
  import AnyOrder
  import Confluence
  import Contests
  import ScanLog

  function Synced(ds: seq<Sync.Delivery>): seq<Action> {
    seq(|ds|, i requires 0 <= i < |ds| => SyncScan(ds[i]))
  }

  function Expired(order: seq<TicketId>, now: int): seq<Action> {
    seq(|order|, i requires 0 <= i < |order| => ExpireTicket(order[i], now))
  }

  /** A sync batch is a run of the system. */
  lemma {:induction false} BatchIsRun(qr: Sync.Qr, db: Db, ds: seq<Sync.Delivery>)
    ensures Sync.DeliverAll(db, ds) == Continue(db, qr, Synced(ds))
  {
    if ds != [] {
      var n := |ds| - 1;
      BatchIsRun(qr, db, ds[..n]);
      assert Synced(ds)[..n] == Synced(ds[..n]);
    }
  }

  /** The next ticket of a proper order is still overdue when its turn comes. */
  lemma {:induction false} StillOverdue(db: Db, order: seq<TicketId>, now: int, n: nat)
    requires |order| == n + 1 && Expiry.ProperOrder(db, order, now)
    ensures Expiry.ProperOrder(db, order[..n], now)
    ensures order[n] in Expiry.Overdue(Expiry.ExpireAll(db, order[..n], now), now)
  {
    Expiry.DropLast(db, order, now);
    Expiry.ExpireAllShot(db, order[..n], now);
    Expiry.OverdueAfter(db, now, Expiry.RefundedBy(db, order[..n], now), Expiry.ExpireAll(db, order[..n], now));
  }

  lemma {:induction false} ExpiredPush(qr: Sync.Qr, db: Db, order: seq<TicketId>, t: TicketId, now: int)
    ensures Continue(db, qr, Expired(order + [t], now))
         == Expiry.ExpireOne(Continue(db, qr, Expired(order, now)), t, now)
  {
    assert Expired(order + [t], now) == Expired(order, now) + [ExpireTicket(t, now)];
    ContinuePush(db, qr, Expired(order, now), ExpireTicket(t, now));
    RefundStep(Continue(db, qr, Expired(order, now)), qr, ExpireTicket(t, now));
  }

  /** So is the expiry job. */
  lemma {:induction false} JobIsRun(qr: Sync.Qr, db: Db, order: seq<TicketId>, now: int)
    ensures Expiry.ExpireAll(db, order, now) == Continue(db, qr, Expired(order, now))
  {
    if order != [] {
      var n := |order| - 1;
      JobIsRun(qr, db, order[..n], now);
      ExpiredPush(qr, db, order[..n], order[n], now);
      assert order == order[..n] + [order[n]];
    }
  }

  /** Left undisturbed, the job refunds no ticket late. */
  lemma {:induction false} JobIsTimely(qr: Sync.Qr, db: Db, order: seq<TicketId>, now: int, n: nat)
    requires Expiry.ProperOrder(db, order, now) && n < |order|
    ensures !Late(Continue(db, qr, Expired(order[..n], now)), ExpireTicket(order[n], now))
  {
    assert order[..n + 1][..n] == order[..n];
    ProperPrefix(db, order, now, n + 1);
    StillOverdue(db, order[..n + 1], now, n);
    JobIsRun(qr, db, order[..n], now);
  }

  lemma {:induction false} ProperPrefix(db: Db, order: seq<TicketId>, now: int, n: nat)
    requires Expiry.ProperOrder(db, order, now) && n <= |order|
    ensures Expiry.ProperOrder(db, order[..n], now)
  {
  }

  lemma {:induction false} ReachableIsProper(qr: Sync.Qr, run: seq<Action>, now: int)
    ensures var db := Run(qr, run);
            && Convergence.RefundsHaveWallets(db)
            && Confluence.ActiveNotRefunded(db)
            && Expiry.Failing(db, now) == {}
  {
    ScanLog.RunRows(qr, run);
  }

  /**
   From every reachable state, all deliveries of a set of scans, repeated, reordered and torn at will,
   end with the same tickets iff every contest is decided; and so do all orders of given deliveries.
   */
  lemma {:induction false} SyncConvergesIff(qr: Sync.Qr, run: seq<Action>, ds: seq<Sync.Delivery>)
    ensures var db := Run(qr, run);
            && (Contests.DeliveryFree(db, ds) <==> Contests.Decided(db, Convergence.Scans(ds), ds))
            && (Contests.OrderFree(db, ds) <==> Contests.Decided(db, Convergence.Complete(ds), ds))
  {
    ReachableIsProper(qr, run, 0);
    Contests.DeliveryFreeIff(Run(qr, run), ds);
    Contests.OrderFreeIff(Run(qr, run), ds);
  }

  /** In particular whenever scans of one ticket by one driver at one instant agree on inspection mode. */
  lemma {:induction false} AgreeingScansConverge(
    qr: Sync.Qr, run: seq<Action>, a: seq<Sync.Delivery>, b: seq<Sync.Delivery>)
    requires Convergence.Scans(a) == Convergence.Scans(b) && Contests.Agree(a)
    ensures Convergence.SameOutcome(Run(qr, run), a, b)
  {
    ReachableIsProper(qr, run, 0);
    Contests.AgreeingIsDecided(Run(qr, run), a);
    Contests.OnlyTheSetMatters(Run(qr, run), a, b);
  }

  /** Crashes and resends never show, as long as batches that contest one another are sent in order. */
  lemma {:induction false} ResendsDoNotShow(
    qr: Sync.Qr, run: seq<Action>, batches: seq<Resend.Batch>,
    history: seq<seq<Sync.Delivery>>, clean: seq<seq<Sync.Delivery>>)
    requires Resend.AtLeastOnceInOrder(batches, history) && Resend.ExactlyOnce(batches, clean)
    ensures Convergence.SameOutcome(Run(qr, run), Resend.Flatten(clean), Resend.Flatten(history))
  {
    ReachableIsProper(qr, run, 0);
    Resend.InOrderIsExactlyOnce(Run(qr, run), batches, history, clean);
  }

  /** And if batches are sent in any order, they still do not show iff the batches are decided. */
  lemma {:induction false} ResendFreeIff(qr: Sync.Qr, run: seq<Action>, batches: seq<Resend.Batch>)
    requires AnyOrder.OneDriverEach(batches)
    ensures AnyOrder.ResendFree(Run(qr, run), batches) <==> AnyOrder.BatchesDecided(Run(qr, run), batches)
  {
    ReachableIsProper(qr, run, 0);
    AnyOrder.ResendFreeIff(Run(qr, run), batches);
  }

  /**
   A ticket for which a fresh boarding scan in time got through ends USED at the earliest of those scan
   times and any earlier recorded use; its refund, if it had one, is gone.  Any other is untouched.
   */
  lemma {:induction false} EarliestBoardingWins(qr: Sync.Qr, run: seq<Action>, ds: seq<Sync.Delivery>, t: TicketId)
    requires t in Run(qr, run).tickets
    ensures var db := Run(qr, run);
            var after := Sync.DeliverAll(db, ds);
            var times := Convergence.AppliedTimes(db, ds, t);
            && t in after.tickets
            && (times == {} ==> after.tickets[t] == db.tickets[t])
            && (times != {} ==>
                  var row := after.tickets[t];
                  && row.status == Used && row.usedAt.Some? && row.refundedAt == None
                  && Convergence.IsLeast(row.usedAt.value, Convergence.UseTimes(db.tickets[t], times)))
  {
    ReachableIsProper(qr, run, 0);
    ScanLog.RunRows(qr, run);
    Convergence.RunConverges(Run(qr, run), ds);
  }

  /** Each passenger pays back, once each, the refunds of exactly those tickets that had boarded. */
  lemma {:induction false} RefundsReversedOnce(qr: Sync.Qr, run: seq<Action>, ds: seq<Sync.Delivery>, u: UserId)
    requires u in Run(qr, run).balances
    ensures var db := Run(qr, run);
            var after := Sync.DeliverAll(db, ds);
            && u in after.balances
            && after.balances[u] == db.balances[u] - Total(Boarded(db, ds, u))
  {
    var db := Run(qr, run);
    var after := Sync.DeliverAll(db, ds);
    ReachableIsProper(qr, run, 0);
    Convergence.RunConverges(db, ds);
    assert Convergence.Reversed(db, after, u) == Boarded(db, ds, u);
  }

  /** Fares of `u`'s refunded tickets for which a fresh boarding scan got through. */
  function Boarded(db: Db, ds: seq<Sync.Delivery>, u: UserId): map<TicketId, int> {
    map t | t in db.tickets && db.tickets[t].status == Refunded && db.tickets[t].passenger == u
         && Convergence.AppliedTimes(db, ds, t) != {} :: db.tickets[t].fare
  }

  /** The ticket got its refund, and its ledger rows say that it got it once. */
  ghost predicate RefundedOnce(db: Db, after: Db, t: TicketId, now: int)
    requires t in db.tickets
  {
    && t in after.tickets && after.tickets[t] == Expiry.AsRefunded(db.tickets[t], now)
    && Trail(after.ledger, Some(t)) == [Purchased(db.tickets[t]), Confluence.RefundOf(db.tickets[t])]
  }

  lemma {:induction false} RefundedTicket(db: Db, now: int, after: Db, t: TicketId)
    requires Ticketed(db, false) && Expiry.OneShot(db, now, after) && t in Expiry.Overdue(db, now)
    ensures RefundedOnce(db, after, t, now)
  {
    assert t in Expiry.Refundable(db, now);
    assert Trail(after.ledger, Some(t))
        == Trail(db.ledger, Some(t)) + Expiry.RefundLine(db, Expiry.Refundable(db, now), Some(t));
  }

  lemma {:induction false} AllRefundable(db: Db, now: int)
    requires Ticketed(db, false)
    ensures Expiry.Refundable(db, now) == Expiry.Overdue(db, now) && Expiry.Failing(db, now) == {}
  {
  }

  /**
   In the running system the job always ends, however its clock moves: there are no more full batches
   than ACTIVE tickets, and no reading of the clock finds a ticket that fails.
   */
  lemma {:induction false} JobEnds(
    qr: Sync.Qr, run: seq<Action>, batches: seq<JobClock.Batch>, clock: nat -> int, tick: nat)
    requires JobClock.AllFull(Run(qr, run), batches)
    ensures |batches| <= |JobClock.ActiveTickets(Run(qr, run))|
    ensures JobClock.FewFail(Run(qr, run), clock, tick)
  {
    ScanLog.RunRows(qr, run);
    JobClock.AllFullIsFull(Run(qr, run), batches);
    JobClock.FullBatchesAreBounded(Run(qr, run), batches);
    forall i: nat ensures |Expiry.Failing(Run(qr, run), clock(i))| < Expiry.BATCH_SIZE {
      AllRefundable(Run(qr, run), clock(i));
    }
  }

  /** At one instant, the job refunds every overdue ticket exactly once. */
  lemma {:induction false} JobRefundsAllOverdue(qr: Sync.Qr, run: seq<Action>, order: seq<TicketId>, now: int)
    requires Expiry.CompleteOrder(Run(qr, run), order, now)
    ensures var db := Run(qr, run);
            var after := Expiry.ExpireAll(db, order, now);
            && |Expiry.Failing(db, now)| < Expiry.BATCH_SIZE
            && Expiry.Overdue(after, now) == {}
            && (forall t | t in Expiry.Overdue(db, now) :: RefundedOnce(db, after, t, now))
            && forall u | u in db.balances ::
                 && u in after.balances
                 && after.balances[u] == db.balances[u] + Total(Expiry.Fares(db, Expiry.Overdue(db, now), u))
  {
    var db := Run(qr, run);
    var after := Expiry.ExpireAll(db, order, now);
    ScanLog.RunRows(qr, run);
    AllRefundable(db, now);
    Expiry.CompleteOrderIsOneShot(db, order, now);
    Expiry.OverdueAfter(db, now, Expiry.Refundable(db, now), after);
    forall t | t in Expiry.Overdue(db, now) ensures RefundedOnce(db, after, t, now) {
      RefundedTicket(db, now, after, t);
    }
  }

  /** And so it does under a moving clock, as of its last query: only the refund times differ. */
  lemma {:induction false} ClockedJobRefundsAllOverdue(
    qr: Sync.Qr, run: seq<Action>, batches: seq<JobClock.Batch>, last: int)
    requires JobClock.Clocked(Run(qr, run), batches) && last == batches[|batches| - 1].queried
    ensures var db := Run(qr, run);
            var after := JobClock.After(db, batches);
            && Expiry.Overdue(after, last) == {}
            && (forall t | t in Expiry.Overdue(db, last) ::
                  && t in after.tickets
                  && JobClock.SameRow(after.tickets[t], Expiry.AsRefunded(db.tickets[t], last))
                  && Trail(after.ledger, Some(t)) == [Purchased(db.tickets[t]), Confluence.RefundOf(db.tickets[t])])
            && forall u | u in db.balances ::
                 && u in after.balances
                 && after.balances[u] == db.balances[u] + Total(Expiry.Fares(db, Expiry.Overdue(db, last), u))
  {
    var db := Run(qr, run);
    var after := JobClock.After(db, batches);
    var order := JobClock.ClockedIsOneShot(db, db, batches);
    JobRefundsAllOverdue(qr, run, order, last);
    JobClock.AlikeQueries(after, Expiry.ExpireAll(db, order, last), last);
    forall t | t in Expiry.Overdue(db, last)
      ensures t in after.tickets && JobClock.SameRow(after.tickets[t], Expiry.AsRefunded(db.tickets[t], last))
      ensures Trail(after.ledger, Some(t)) == [Purchased(db.tickets[t]), Confluence.RefundOf(db.tickets[t])]
    {
      assert RefundedOnce(db, Expiry.ExpireAll(db, order, last), t, last);
    }
  }

  /** Late sync and expiry commute from every reachable state, whatever rows the job's queries picked. */
  lemma {:induction false} SyncAndExpiryCommute(
    qr: Sync.Qr, run: seq<Action>, ds: seq<Sync.Delivery>, now: int, early: seq<TicketId>, late: seq<TicketId>)
    requires Expiry.CompleteOrder(Run(qr, run), early, now)
    requires Expiry.CompleteOrder(Sync.DeliverAll(Run(qr, run), ds), late, now)
    ensures var db := Run(qr, run);
            var jobFirst := Sync.DeliverAll(Expiry.ExpireAll(db, early, now), ds);
            var syncFirst := Expiry.ExpireAll(Sync.DeliverAll(db, ds), late, now);
            && jobFirst.tickets == syncFirst.tickets
            && jobFirst.balances == syncFirst.balances
            && jobFirst.events == syncFirst.events
            && Trail(jobFirst.ledger, None) == Trail(syncFirst.ledger, None)
            && forall t | t in syncFirst.tickets ::
                 Confluence.SameButCancelled(Trail(jobFirst.ledger, Some(t)), Trail(syncFirst.ledger, Some(t)),
                                             syncFirst.tickets[t])
  {
    var db := Run(qr, run);
    var afterJob := Expiry.ExpireAll(db, early, now);
    var afterSync := Sync.DeliverAll(db, ds);
    ReachableIsProper(qr, run, now);
    Expiry.CompleteOrderIsOneShot(db, early, now);
    Expiry.CompleteOrderIsOneShot(afterSync, late, now);
    Confluence.LateSyncAndExpiryCommute(db, now, ds, afterJob, Sync.DeliverAll(afterJob, ds),
                                        Expiry.ExpireAll(afterSync, late, now));
  }
}
