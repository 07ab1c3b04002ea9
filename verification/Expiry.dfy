/**
 The ticket expiry job: what one transaction, one batch and the whole job do.  `Shot` says at once what
 the job is for; every proper order of its transactions is proved to reach that state.  The job itself,
 with its batches and its clock, is in `JobClock`.
 */
module Expiry {
  import opened Wrappers
  import opened Store
  import opened Totals
  import Wallet

  const BATCH_SIZE := 100

  predicate IsOverdue(ticket: Ticket, now: int) {
    ticket.status == Active && ticket.expiresAt < now
  }

  function Overdue(db: Db, now: int): set<TicketId> {
    set t | t in db.tickets && IsOverdue(db.tickets[t], now)
  }

  /** Overdue tickets whose passenger has a wallet to refund to. */
  function Refundable(db: Db, now: int): set<TicketId> {
    set t | t in Overdue(db, now) && db.tickets[t].passenger in db.balances
  }

  function Failing(db: Db, now: int): set<TicketId> {
    Overdue(db, now) - Refundable(db, now)
  }

  function AsRefunded(ticket: Ticket, now: int): Ticket {
    ticket.(status := Refunded, refundedAt := Some(now))
  }

  /** One ticket's transaction.  It is addressed by id alone; a failing credit rolls it back. */
  function ExpireOne(db: Db, t: TicketId, now: int): Db {
    if t !in db.tickets then db
    else
      var ticket := db.tickets[t];
      match Wallet.Credited(db, ticket.passenger, ticket.fare, t)
      case Failure(_) => db
      case Success(paid) => paid.(tickets := db.tickets[t := AsRefunded(ticket, now)])
  }

  function ExpireAll(db: Db, order: seq<TicketId>, now: int): Db {
    if order == [] then db
    else ExpireOne(ExpireAll(db, order[..|order| - 1], now), order[|order| - 1], now)
  }

  lemma {:induction false} ExpireAllConcat(db: Db, a: seq<TicketId>, b: seq<TicketId>, now: int)
    ensures ExpireAll(db, a + b, now) == ExpireAll(ExpireAll(db, a, now), b, now)
  {
    if b == [] {
      assert a + b == a;
    } else {
      var n := |b| - 1;
      ExpireAllConcat(db, a, b[..n], now);
      assert (a + b)[..|a + b| - 1] == a + b[..n];
    }
  }

  // ---- What the job is for ----

  function Fares(db: Db, done: set<TicketId>, u: UserId): map<TicketId, int> {
    map t | t in done && t in db.tickets && db.tickets[t].passenger == u :: db.tickets[t].fare
  }

  /** `after` is `db` with exactly the tickets in `done` refunded, each of them once. */
  ghost predicate Shot(db: Db, now: int, done: set<TicketId>, after: Db) {
    && after.tickets == (map t | t in db.tickets ::
         if t in done then AsRefunded(db.tickets[t], now) else db.tickets[t])
    && after.balances.Keys == db.balances.Keys
    && (forall u | u in db.balances :: after.balances[u] == db.balances[u] + Total(Fares(db, done, u)))
    && after.events == db.events
    && forall t :: Trail(after.ledger, t) == Trail(db.ledger, t) + RefundLine(db, done, t)
  }

  function RefundLine(db: Db, done: set<TicketId>, t: Option<TicketId>): seq<Line> {
    if t.Some? && t.value in done && t.value in db.tickets then
      [Line(Refund, db.tickets[t.value].passenger, db.tickets[t.value].fare)]
    else []
  }

  /** The whole job, in one step: exactly the overdue tickets that can be refunded are. */
  ghost predicate OneShot(db: Db, now: int, after: Db) {
    Shot(db, now, Refundable(db, now), after)
  }

  /** The ids that a run of the job processed: only overdue ones, and none refunded twice. */
  ghost predicate ProperOrder(db: Db, order: seq<TicketId>, now: int) {
    && (forall i | 0 <= i < |order| :: order[i] in Overdue(db, now))
    && forall i, j | 0 <= i < j < |order| && order[i] == order[j] :: order[i] in Failing(db, now)
  }

  ghost predicate CompleteOrder(db: Db, order: seq<TicketId>, now: int) {
    && ProperOrder(db, order, now)
    && forall t | t in Refundable(db, now) :: t in order
  }

  ghost function RefundedBy(db: Db, order: seq<TicketId>, now: int): set<TicketId> {
    set t | t in Refundable(db, now) && t in order
  }

  lemma {:induction false} ShotNothing(db: Db, now: int)
    ensures Shot(db, now, {}, db)
  {
    forall u | u in db.balances ensures Total(Fares(db, {}, u)) == 0 {
      assert Fares(db, {}, u) == map[];
    }
  }

  lemma {:induction false} FaresStep(db: Db, done: set<TicketId>, t: TicketId, u: UserId)
    requires t in db.tickets && t !in done
    ensures Total(Fares(db, done + {t}, u))
         == Total(Fares(db, done, u)) + if db.tickets[t].passenger == u then db.tickets[t].fare else 0
  {
    if u == db.tickets[t].passenger {
      TotalAdd(Fares(db, done, u), t, db.tickets[t].fare);
      assert Fares(db, done + {t}, u) == Fares(db, done, u)[t := db.tickets[t].fare];
    } else {
      assert Fares(db, done + {t}, u) == Fares(db, done, u);
    }
  }

  lemma {:induction false} RefundTrail(db: Db, now: int, done: set<TicketId>, mid: Db, t: TicketId, x: Option<TicketId>)
    requires done <= Refundable(db, now) && Shot(db, now, done, mid)
    requires t in Refundable(db, now) && t !in done
    ensures Trail(ExpireOne(mid, t, now).ledger, x) == Trail(db.ledger, x) + RefundLine(db, done + {t}, x)
  {
    var ticket := db.tickets[t];
    TrailPush(mid.ledger, Wallet.RefundEntry(mid, ticket.passenger, ticket.fare, t), x);
    assert Trail(mid.ledger, x) == Trail(db.ledger, x) + RefundLine(db, done, x);
  }

  lemma {:induction false} RefundBalance(db: Db, now: int, done: set<TicketId>, mid: Db, t: TicketId, u: UserId)
    requires done <= Refundable(db, now) && Shot(db, now, done, mid)
    requires t in Refundable(db, now) && t !in done && u in db.balances
    ensures var after := ExpireOne(mid, t, now);
            u in after.balances && after.balances[u] == db.balances[u] + Total(Fares(db, done + {t}, u))
  {
    FaresStep(db, done, t, u);
  }

  lemma {:induction false} ShotStep(db: Db, now: int, done: set<TicketId>, mid: Db, t: TicketId)
    requires done <= Refundable(db, now) && Shot(db, now, done, mid)
    requires t in Refundable(db, now) && t !in done
    ensures Shot(db, now, done + {t}, ExpireOne(mid, t, now))
  {
    var after := ExpireOne(mid, t, now);
    forall u | u in db.balances
      ensures after.balances[u] == db.balances[u] + Total(Fares(db, done + {t}, u))
    {
      RefundBalance(db, now, done, mid, t, u);
    }
    forall x ensures Trail(after.ledger, x) == Trail(db.ledger, x) + RefundLine(db, done + {t}, x) {
      RefundTrail(db, now, done, mid, t, x);
    }
  }

  lemma {:induction false} ShotAny(db: Db, now: int, done: set<TicketId>, mid: Db, t: TicketId, more: set<TicketId>)
    requires done <= Refundable(db, now) && Shot(db, now, done, mid)
    requires t in Overdue(db, now) && t !in done
    requires more == done + if t in Refundable(db, now) then {t} else {}
    ensures Shot(db, now, more, ExpireOne(mid, t, now))
  {
    if t in Refundable(db, now) {
      ShotStep(db, now, done, mid, t);
    } else {
      assert more == done;
      assert ExpireOne(mid, t, now) == mid;
    }
  }

  lemma {:induction false} DropLast(db: Db, order: seq<TicketId>, now: int)
    requires order != [] && ProperOrder(db, order, now)
    ensures var before, t := order[..|order| - 1], order[|order| - 1];
            && ProperOrder(db, before, now)
            && t !in RefundedBy(db, before, now)
            && t in Overdue(db, now)
            && RefundedBy(db, order, now)
            == RefundedBy(db, before, now) + if t in Refundable(db, now) then {t} else {}
  {
    var before, t := order[..|order| - 1], order[|order| - 1];
    assert order == before + [t];
  }

  lemma {:induction false} ExpireAllShot(db: Db, order: seq<TicketId>, now: int)
    requires ProperOrder(db, order, now)
    ensures Shot(db, now, RefundedBy(db, order, now), ExpireAll(db, order, now))
  {
    if order == [] {
      ShotNothing(db, now);
      assert RefundedBy(db, order, now) == {};
    } else {
      var before, t := order[..|order| - 1], order[|order| - 1];
      DropLast(db, order, now);
      ExpireAllShot(db, before, now);
      ShotAny(db, now, RefundedBy(db, before, now), ExpireAll(db, before, now), t, RefundedBy(db, order, now));
    }
  }

  /** Every complete processing order, whatever the batches were, reaches the one-shot state. */
  lemma {:induction false} CompleteOrderIsOneShot(db: Db, order: seq<TicketId>, now: int)
    requires CompleteOrder(db, order, now)
    ensures OneShot(db, now, ExpireAll(db, order, now))
  {
    ExpireAllShot(db, order, now);
    assert RefundedBy(db, order, now) == Refundable(db, now);
  }

  // ---- Batches ----

  predicate Distinct<T(==)>(s: seq<T>) {
    forall i, j | 0 <= i < j < |s| :: s[i] != s[j]
  }

  /** What the limited query may return: distinct overdue rows, all of them unless the limit is hit. */
  ghost predicate ValidPick(db: Db, now: int, rows: seq<TicketId>) {
    && Distinct(rows)
    && |rows| <= BATCH_SIZE
    && (forall i | 0 <= i < |rows| :: rows[i] in Overdue(db, now))
    && (|rows| < BATCH_SIZE ==> forall t | t in Overdue(db, now) :: t in rows)
  }

  lemma {:induction false} SubsetSize<T>(a: set<T>, b: set<T>)
    requires a <= b
    ensures |a| <= |b|
  {
    if a != {} {
      var x :| x in a;
      SubsetSize(a - {x}, b - {x});
    }
  }

  lemma {:induction false} DistinctSize<T>(s: seq<T>)
    requires Distinct(s)
    ensures |(set x | x in s)| == |s|
  {
    if s != [] {
      var n := |s| - 1;
      DistinctSize(s[..n]);
      assert (set x | x in s) == (set x | x in s[..n]) + {s[n]};
    }
  }

  /** A full batch holds a refundable ticket, so every recursive call faces fewer overdue ones. */
  lemma {:induction false} FullBatchProgresses(db: Db, now: int, rows: seq<TicketId>) returns (t: TicketId)
    requires ValidPick(db, now, rows) && |rows| == BATCH_SIZE
    requires |Failing(db, now)| < BATCH_SIZE
    ensures t in rows && t in Refundable(db, now)
  {
    var picked := set x | x in rows;
    DistinctSize(rows);
    if picked <= Failing(db, now) {
      SubsetSize(picked, Failing(db, now));
      assert false;
    }
    t :| t in picked && t !in Failing(db, now);
  }

  lemma {:induction false} OverdueAfter(db: Db, now: int, done: set<TicketId>, after: Db)
    requires done <= Refundable(db, now) && Shot(db, now, done, after)
    ensures Overdue(after, now) == Overdue(db, now) - done
    ensures Refundable(after, now) == Refundable(db, now) - done
    ensures Failing(after, now) == Failing(db, now)
  {
  }

  lemma {:induction false} Enumerate<T>(s: set<T>, n: nat) returns (rows: seq<T>)
    requires n <= |s|
    ensures |rows| == n && Distinct(rows) && forall i | 0 <= i < n :: rows[i] in s
    decreases n
  {
    rows := [];
    if n > 0 {
      var x :| x in s;
      var rest := Enumerate(s - {x}, n - 1);
      rows := rest + [x];
    }
  }

  lemma {:induction false} FailingOrderDoesNothing(db: Db, order: seq<TicketId>, now: int)
    requires forall i | 0 <= i < |order| :: order[i] in Failing(db, now)
    ensures ExpireAll(db, order, now) == db
  {
    if order != [] {
      FailingOrderDoesNothing(db, order[..|order| - 1], now);
    }
  }

  /**
   With 100 or more walletless passengers, and only then, the query may return a full batch that changes
   nothing, after which the job calls itself on the same state.
   */
  lemma {:induction false} StuckIffManyFailing(db: Db, now: int)
    ensures (exists rows :: ValidPick(db, now, rows) && |rows| == BATCH_SIZE
                            && ExpireAll(db, rows, now) == db)
       <==> |Failing(db, now)| >= BATCH_SIZE
  {
    if |Failing(db, now)| >= BATCH_SIZE {
      var rows := Enumerate(Failing(db, now), BATCH_SIZE);
      FailingOrderDoesNothing(db, rows, now);
      assert ValidPick(db, now, rows);
    } else {
      forall rows | ValidPick(db, now, rows) && |rows| == BATCH_SIZE
        ensures ExpireAll(db, rows, now) != db
      {
        var t := FullBatchProgresses(db, now, rows);
        ExpireAllShot(db, rows, now);
        assert t in RefundedBy(db, rows, now);
        assert ExpireAll(db, rows, now).tickets[t].status == Refunded;
      }
    }
  }

  lemma {:induction false} PickIsProper(db: Db, now: int, rows: seq<TicketId>)
    requires ValidPick(db, now, rows)
    ensures ProperOrder(db, rows, now)
    ensures |rows| < BATCH_SIZE ==> CompleteOrder(db, rows, now)
  {
  }

  /** A batch followed by a complete run from the state it leaves is a complete run. */
  lemma {:induction false} CompleteAfterBatch(db: Db, now: int, rows: seq<TicketId>, rest: seq<TicketId>)
    requires ProperOrder(db, rows, now)
    requires CompleteOrder(ExpireAll(db, rows, now), rest, now)
    ensures CompleteOrder(db, rows + rest, now)
    ensures ExpireAll(db, rows + rest, now) == ExpireAll(ExpireAll(db, rows, now), rest, now)
  {
    ExpireAllShot(db, rows, now);
    OverdueAfter(db, now, RefundedBy(db, rows, now), ExpireAll(db, rows, now));
    ExpireAllConcat(db, rows, rest, now);
  }

  lemma {:induction false} AllEnumerated<T>(a: set<T>, b: set<T>)
    requires a <= b && |a| == |b|
    ensures a == b
  {
    if x :| x in b && x !in a {
      SubsetSize(a, b - {x});
    }
  }

  /** A query that does not fill its batch has room for all failing tickets. */
  lemma {:induction false} FailingFits(db: Db, now: int, rows: seq<TicketId>)
    requires ValidPick(db, now, rows) && |rows| < BATCH_SIZE
    ensures |Failing(db, now)| < BATCH_SIZE
  {
    DistinctSize(rows);
    SubsetSize(Failing(db, now), (set x | x in rows));
  }

  /** Before its turn, a processed ticket is as the batch query read it, and one more is then done. */
  lemma {:induction false} BatchStep(db: Db, order: seq<TicketId>, now: int)
    requires order != [] && ProperOrder(db, order, now)
    ensures var before, t := order[..|order| - 1], order[|order| - 1];
            var mid := ExpireAll(db, before, now);
            && t in db.tickets && t in mid.tickets && mid.tickets[t] == db.tickets[t]
            && mid.balances.Keys == db.balances.Keys
            && |RefundedBy(db, order, now)|
            == |RefundedBy(db, before, now)| + if db.tickets[t].passenger in db.balances then 1 else 0
  {
    DropLast(db, order, now);
    ExpireAllShot(db, order[..|order| - 1], now);
  }

  // ---- The query and the transaction ----

  method FindOverdue(db: Database, now: int) returns (rows: seq<TicketId>)
    ensures ValidPick(db.Rows(), now, rows)
  {
    rows := [];
    var rest := set t | t in db.tickets && IsOverdue(db.tickets[t], now);
    ghost var all := Overdue(db.Rows(), now);
    while |rows| < BATCH_SIZE && rest != {}
      invariant rest <= all && |rows| <= BATCH_SIZE && Distinct(rows)
      invariant forall i | 0 <= i < |rows| :: rows[i] in all && rows[i] !in rest
      invariant forall t | t in all :: t in rows || t in rest
      decreases rest
    {
      var t :| t in rest;
      rest := rest - {t};
      rows := rows + [t];
    }
  }

  /** One transaction; `row` is the ticket as the batch query returned it. */
  method RefundExpired(db: Database, t: TicketId, row: Ticket, now: int) returns (ok: bool)
    requires t in db.tickets ==>
      row.passenger == db.tickets[t].passenger && row.fare == db.tickets[t].fare
    modifies db
    ensures db.Rows() == ExpireOne(old(db.Rows()), t, now)
    ensures ok <==> t in old(db.tickets) && old(db.tickets)[t].passenger in old(db.balances)
    ensures db.trips == old(db.trips)
  {
    if t !in db.tickets {
      return false;
    }
    var tickets := db.tickets;
    db.tickets := db.tickets[t := db.tickets[t].(status := Expired)];
    var credited := Wallet.Credit(db, row.passenger, row.fare, t);
    if credited.Failure? {
      db.tickets := tickets;
      return false;
    }
    db.tickets := db.tickets[t := AsRefunded(db.tickets[t], now)];
    ok := true;
  }
}
