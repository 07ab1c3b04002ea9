/**
 Runs of the whole system from empty tables: registrations, top-ups, payment callbacks, purchases,
 online validations and offline scans (whole, or cut off by a crash before their event is logged) and
 refunds by the expiry job, in any order and number, one service call or transaction at a time.

 The expiry job refunds by id from a list that it read earlier, without another look at the status.
 So a refund may meet a ticket that has been used or refunded since; what that breaks is stated
 exactly, and everything else holds in every run.
 */
module Runs {
  import opened Wrappers
  import opened Store
  import opened Books
  import opened Steps
  import Wallet
  import Tickets
  import Validation
  import Sync
  import Expiry

  datatype Action =
    | Register(u: UserId)
    | InitiateTopup(u: UserId, amount: int, ref: Ref, key: Key)
    | Webhook(row: nat, success: bool)
    | Purchase(u: UserId, fare: int, t: TicketId, key: Key, now: int)
    | Validate(request: Validation.Request, trip: Option<TripId>, torn: bool)
    | SyncScan(delivery: Sync.Delivery)
    | ExpireTicket(t: TicketId, now: int)

  /**
   What the surroundings guarantee: fares are positive, a callback is matched to a top-up row, and the
   expiry check follows the entry of its request.
   */
  predicate Legal(db: Db, a: Action) {
    match a
    case Webhook(row, _) => row < |db.ledger| && db.ledger[row].kind == Topup
    case Purchase(_, fare, _, _, _) => fare > 0
    case Validate(r, _, _) => r.scannedAt <= r.checkedAt
    case _ => true
  }

  function Step(db: Db, qr: Sync.Qr, a: Action): Db {
    if !Legal(db, a) then db
    else
      match a
      case Register(u) => Opened(db, u)
      case InitiateTopup(u, amount, ref, key) => OrSame(db, Wallet.TopupInitiated(db, u, amount, ref, key))
      case Webhook(row, success) => Wallet.Settled(db, row, success)
      case Purchase(u, fare, t, key, now) => OrSame(db, Tickets.Purchased(db, u, fare, t, key, now))
      case Validate(r, trip, torn) =>
        var after := Validation.Validated(db, qr, r, trip).after;
        if torn then after.(events := db.events) else after
      case SyncScan(d) => Sync.Deliver(db, d)
      case ExpireTicket(t, now) => Expiry.ExpireOne(db, t, now)
  }

  /** The state after performing `run` on `db`. */
  function Continue(db: Db, qr: Sync.Qr, run: seq<Action>): Db {
    if run == [] then db else Step(Continue(db, qr, run[..|run| - 1]), qr, run[|run| - 1])
  }

  function Run(qr: Sync.Qr, run: seq<Action>): Db {
    Continue(EMPTY, qr, run)
  }

  lemma {:induction false} ContinuePush(db: Db, qr: Sync.Qr, run: seq<Action>, a: Action)
    ensures Continue(db, qr, run + [a]) == Step(Continue(db, qr, run), qr, a)
  {
    assert (run + [a])[..|run|] == run;
  }

  // ---- Refunds that come too late ----

  /** The step refunds a ticket that is in status `status` by now. */
  predicate Refunds(db: Db, a: Action, status: TicketStatus) {
    a.ExpireTicket? && a.t in db.tickets && db.tickets[a.t].status == status
  }

  /** No refund of the run meets a ticket in status `status`. */
  predicate Spares(qr: Sync.Qr, run: seq<Action>, status: TicketStatus) {
    run == [] ||
    (Spares(qr, run[..|run| - 1], status) && !Refunds(Run(qr, run[..|run| - 1]), run[|run| - 1], status))
  }

  /** Every refund of the run meets its ticket still ACTIVE. */
  predicate Timely(qr: Sync.Qr, run: seq<Action>) {
    Spares(qr, run, Used) && Spares(qr, run, Refunded)
  }

  /** What a step pays out a second time. */
  function Surplus(db: Db, a: Action): int {
    if a.ExpireTicket? && a.t in db.tickets then RefundSurplus(db.tickets[a.t]) else 0
  }

  function Excess(qr: Sync.Qr, run: seq<Action>): int {
    if run == [] then 0
    else Excess(qr, run[..|run| - 1]) + Surplus(Run(qr, run[..|run| - 1]), run[|run| - 1])
  }

  // ---- Steps keep everything ----

  /** A delivery is the ticket write that the scan decides on, and an event. */
  lemma {:induction false} DeliveryWrites(db: Db, d: Sync.Delivery)
    requires Funded(db)
    ensures var p, after := d.scan, Sync.Deliver(db, d);
            if p.ticket !in db.tickets || Sync.Logged(db.events, p) then after == db
            else
              var write := Sync.Judge(db.tickets[p.ticket], p.scannedAt, p.isInspection).write;
              after == WriteTo(db, p.ticket, p.scannedAt, write).(events := after.events)
  {
  }

  lemma {:induction false} DeliveryFits(db: Db, d: Sync.Delivery, timely: bool)
    requires Ticketed(db, timely)
    ensures Ticketed(Sync.Deliver(db, d), timely)
  {
    var p, after := d.scan, Sync.Deliver(db, d);
    Weaken(db, timely);
    DeliveryWrites(db, d);
    if p.ticket in db.tickets && !Sync.Logged(db.events, p) {
      var row := db.tickets[p.ticket];
      var write := Sync.Judge(row, p.scannedAt, p.isInspection).write;
      JudgedIsApt(row, db.balances, p.scannedAt, p.isInspection, timely);
      WriteFits(db, p.ticket, p.scannedAt, write, timely);
      EventsFit(WriteTo(db, p.ticket, p.scannedAt, write), after.events, timely);
    }
  }

  lemma {:induction false} DeliveryBalanced(db: Db, d: Sync.Delivery, extra: int)
    requires Ticketed(db, false) && Balanced(db, extra)
    ensures Balanced(Sync.Deliver(db, d), extra)
  {
    var p, after := d.scan, Sync.Deliver(db, d);
    Weaken(db, false);
    DeliveryWrites(db, d);
    if p.ticket in db.tickets && !Sync.Logged(db.events, p) {
      var row := db.tickets[p.ticket];
      var write := Sync.Judge(row, p.scannedAt, p.isInspection).write;
      JudgedIsApt(row, db.balances, p.scannedAt, p.isInspection, false);
      WriteBalanced(db, p.ticket, p.scannedAt, write, extra);
      EventsBalanced(WriteTo(db, p.ticket, p.scannedAt, write), after.events, extra);
    }
  }

  /** Online validation writes at most the row of one ACTIVE ticket, and the scan log. */
  lemma {:induction false} ValidatedRows(db: Db, qr: Sync.Qr, r: Validation.Request, trip: Option<TripId>)
    ensures var after := Validation.Validated(db, qr, r, trip).after;
            && after == db.(tickets := after.tickets, events := after.events)
            && (after.tickets != db.tickets ==>
                  var parsed := qr.parse(r.payload);
                  && parsed.Some? && parsed.value in db.tickets
                  && db.tickets[parsed.value].status == Active
                  && r.checkedAt <= db.tickets[parsed.value].expiresAt
                  && after.tickets == db.tickets[parsed.value :=
                       db.tickets[parsed.value].(status := Used, usedAt := Some(r.scannedAt))])
  {
  }

  lemma {:induction false} ValidationFits(
    db: Db, qr: Sync.Qr, r: Validation.Request, trip: Option<TripId>, events: seq<ScanEvent>, timely: bool)
    requires Ticketed(db, timely) && r.scannedAt <= r.checkedAt
    ensures Ticketed(Validation.Validated(db, qr, r, trip).after.(events := events), timely)
  {
    var after := Validation.Validated(db, qr, r, trip).after;
    ValidatedRows(db, qr, r, trip);
    if after.tickets != db.tickets {
      var t := qr.parse(r.payload).value;
      WriteFits(db, t, r.scannedAt, Sync.MarkUsed, timely);
      UseIsWrite(db, t, r.scannedAt);
      EventsFit(WriteTo(db, t, r.scannedAt, Sync.MarkUsed), events, timely);
    } else {
      EventsFit(db, events, timely);
    }
  }

  lemma {:induction false} ValidationBalanced(
    db: Db, qr: Sync.Qr, r: Validation.Request, trip: Option<TripId>, events: seq<ScanEvent>, extra: int)
    requires Funded(db) && Balanced(db, extra)
    ensures Balanced(Validation.Validated(db, qr, r, trip).after.(events := events), extra)
  {
    var after := Validation.Validated(db, qr, r, trip).after;
    ValidatedRows(db, qr, r, trip);
    if after.tickets != db.tickets {
      var t := qr.parse(r.payload).value;
      WriteBalanced(db, t, r.scannedAt, Sync.MarkUsed, extra);
      UseIsWrite(db, t, r.scannedAt);
      EventsBalanced(WriteTo(db, t, r.scannedAt, Sync.MarkUsed), events, extra);
    } else {
      EventsBalanced(db, events, extra);
    }
  }

  predicate Late(db: Db, a: Action) {
    Refunds(db, a, Used) || Refunds(db, a, Refunded)
  }

  lemma {:induction false} StepFits(db: Db, qr: Sync.Qr, a: Action, timely: bool)
    requires Ticketed(db, timely)
    requires timely ==> !Late(db, a)
    ensures Ticketed(Step(db, qr, a), timely)
  {
    if Legal(db, a) {
      match a
      case Register(u) => OpeningFits(db, u, timely);
      case InitiateTopup(u, amount, ref, key) => InitiationFits(db, u, amount, ref, key, timely);
      case Webhook(row, success) => SettlingFits(db, row, success, timely);
      case Purchase(u, fare, t, key, now) => PurchaseFits(db, u, fare, t, key, now, timely);
      case Validate(r, trip, _) => ValidationFits(db, qr, r, trip, Step(db, qr, a).events, timely);
      case SyncScan(d) => DeliveryFits(db, d, timely);
      case ExpireTicket(t, now) =>
        if t in db.tickets {
          RefundFits(db, t, now, timely);
        }
    }
  }

  lemma {:induction false} RefundStep(db: Db, qr: Sync.Qr, a: Action)
    requires a.ExpireTicket?
    ensures Step(db, qr, a) == Expiry.ExpireOne(db, a.t, a.now)
    ensures a.t !in db.tickets ==> Step(db, qr, a) == db
  {
  }

  lemma {:induction false} OtherStepBalanced(db: Db, qr: Sync.Qr, a: Action, extra: int)
    requires Ticketed(db, false) && Funded(db) && Balanced(db, extra) && !a.ExpireTicket?
    ensures Balanced(Step(db, qr, a), extra)
  {
    if Legal(db, a) {
      match a
      case Register(u) => OpeningKeepsBalanced(db, u, extra);
      case InitiateTopup(u, amount, ref, key) => InitiationBalanced(db, u, amount, ref, key, extra);
      case Webhook(row, success) => SettlingKeepsBalanced(db, row, success, extra);
      case Purchase(u, fare, t, key, now) => PurchaseBalanced(db, u, fare, t, key, now, extra);
      case Validate(r, trip, _) => ValidationBalanced(db, qr, r, trip, Step(db, qr, a).events, extra);
      case SyncScan(d) => DeliveryBalanced(db, d, extra);
    }
  }

  lemma {:induction false} StepBalanced(db: Db, qr: Sync.Qr, a: Action, extra: int)
    requires Ticketed(db, false) && Balanced(db, extra)
    ensures Balanced(Step(db, qr, a), extra + Surplus(db, a))
  {
    Weaken(db, false);
    if a.ExpireTicket? {
      RefundStep(db, qr, a);
      if a.t in db.tickets {
        RefundBalanced(db, a.t, a.now, extra);
      }
    } else {
      OtherStepBalanced(db, qr, a, extra);
    }
  }

  /** Every step keeps the books, and also the fit of tickets and ledger unless it is a late refund. */
  lemma {:induction false} StepTicketed(db: Db, qr: Sync.Qr, a: Action, timely: bool, extra: int)
    requires Ticketed(db, timely) && Balanced(db, extra)
    requires timely ==> !Late(db, a)
    ensures Ticketed(Step(db, qr, a), timely) && Balanced(Step(db, qr, a), extra + Surplus(db, a))
  {
    Weaken(db, timely);
    StepFits(db, qr, a, timely);
    StepBalanced(db, qr, a, extra);
  }

  lemma {:induction false} EmptyIsFine()
    ensures Ticketed(EMPTY, true) && Balanced(EMPTY, 0)
  {
    assert Held(EMPTY.tickets) == map[];
  }

  // ---- The theorems ----

  /**
   In every run: balances plus fares of unrefunded tickets are the completed top-ups plus what was
   refunded twice; each balance is the fold of its entries in completion order; each recorded running
   balance is a prefix of that fold; and a wallet is overdrawn at most by the refunds taken back from
   it.  Ticket rows and their ledger rows fit, in full as long as all refunds were in time.
   */
  lemma {:induction false} RunKeepsBooks(qr: Sync.Qr, run: seq<Action>)
    ensures Balanced(Run(qr, run), Excess(qr, run))
    ensures Ticketed(Run(qr, run), Timely(qr, run))
  {
    if run == [] {
      EmptyIsFine();
    } else {
      var prefix, a := run[..|run| - 1], run[|run| - 1];
      RunKeepsBooks(qr, prefix);
      if Timely(qr, prefix) && !Timely(qr, run) {
        Weaken(Run(qr, prefix), true);
      }
      StepTicketed(Run(qr, prefix), qr, a, Timely(qr, run), Excess(qr, prefix));
    }
  }

  lemma {:induction false} SparesPrefix(qr: Sync.Qr, run: seq<Action>, n: nat, status: TicketStatus)
    requires n <= |run| && Spares(qr, run, status)
    ensures Spares(qr, run[..n], status)
  {
    if n < |run| {
      SparesPrefix(qr, run[..|run| - 1], n, status);
      assert run[..|run| - 1][..n] == run[..n];
    } else {
      assert run[..n] == run;
    }
  }

  lemma {:induction false} LateBreaks(db: Db, qr: Sync.Qr, a: Action)
    requires Ticketed(db, true) && Late(db, a)
    ensures !Ticketed(Step(db, qr, a), true)
  {
    RefundStep(db, qr, a);
    RefundFitsIffActive(db, a.t, a.now);
  }

  /** The state right after the first late refund does not fit. */
  lemma {:induction false} UntimelyBreaks(qr: Sync.Qr, run: seq<Action>) returns (n: nat)
    requires !Timely(qr, run)
    ensures n <= |run| && !Ticketed(Run(qr, run[..n]), true)
  {
    var prefix, a := run[..|run| - 1], run[|run| - 1];
    n := |run|;
    assert run[..n] == run;
    if Timely(qr, prefix) {
      RunKeepsBooks(qr, prefix);
      LateBreaks(Run(qr, prefix), qr, a);
    } else {
      n := UntimelyBreaks(qr, prefix);
      assert run[..n] == prefix[..n];
    }
  }

  /** Tickets and ledger fit all along a run iff no refund of it comes late. */
  lemma {:induction false} FitsIffTimely(qr: Sync.Qr, run: seq<Action>)
    ensures (forall n | 0 <= n <= |run| :: Ticketed(Run(qr, run[..n]), true)) <==> Timely(qr, run)
  {
    if Timely(qr, run) {
      forall n | 0 <= n <= |run| ensures Ticketed(Run(qr, run[..n]), true) {
        SparesPrefix(qr, run, n, Used);
        SparesPrefix(qr, run, n, Refunded);
        RunKeepsBooks(qr, run[..n]);
      }
    } else {
      var n := UntimelyBreaks(qr, run);
    }
  }

  lemma {:induction false} ExcessIsCounted(qr: Sync.Qr, run: seq<Action>)
    ensures Excess(qr, run) >= 0
    ensures Excess(qr, run) == 0 <==> Spares(qr, run, Refunded)
  {
    if run != [] {
      var prefix := run[..|run| - 1];
      ExcessIsCounted(qr, prefix);
      RunKeepsBooks(qr, prefix);
    }
  }

  /** Money is conserved at the end of a run iff no ticket was refunded twice on the way. */
  lemma {:induction false} ConservedIffNoDoubleRefund(qr: Sync.Qr, run: seq<Action>)
    ensures Conserved(Run(qr, run), 0) <==> Spares(qr, run, Refunded)
  {
    RunKeepsBooks(qr, run);
    ExcessIsCounted(qr, run);
  }

  lemma {:induction false} NoReversalsNoAdjustments(ledger: seq<Entry>, u: UserId)
    requires forall i | 0 <= i < |ledger| :: ledger[i].kind != Adjustment
    ensures SumOf(ledger, AdjustmentFor(u)) == 0
  {
    if ledger != [] {
      NoReversalsNoAdjustments(ledger[..|ledger| - 1], u);
    }
  }

  /** Without a reversed refund no wallet is ever overdrawn. */
  lemma {:induction false} NeverNegativeWithoutReversals(qr: Sync.Qr, run: seq<Action>, u: UserId)
    requires u in Run(qr, run).balances
    requires forall i | 0 <= i < |Run(qr, run).ledger| :: Run(qr, run).ledger[i].kind != Adjustment
    ensures Run(qr, run).balances[u] >= 0
  {
    RunKeepsBooks(qr, run);
    NoReversalsNoAdjustments(Run(qr, run).ledger, u);
  }

  /** A ticket's status can be read off its ledger rows, up to the use of a ticket never refunded. */
  lemma {:induction false} LedgerDeterminesStatus(qr: Sync.Qr, run: seq<Action>, t: TicketId)
    requires Timely(qr, run)
    ensures var db := Run(qr, run);
            var trail := Trail(db.ledger, Some(t));
            && (trail == [] <==> t !in db.tickets)
            && (t in db.tickets ==>
                  var row := db.tickets[t];
                  && (|trail| == 2 <==> row.status == Refunded)
                  && (|trail| == 3 ==> row.status == Used)
                  && TrailFits(row, trail, true))
  {
    RunKeepsBooks(qr, run);
  }
}
