/**
 Runs of the expiry job under a clock that moves while it works: every query and every refund reads it
 again.  They end, and do the one-shot refund as of their last query; only the refund times differ.
 */
module JobClock {
  import opened Store
  import opened Expiry

  datatype Stamp = Stamp(ticket: TicketId, at: int)

  /** One batch: when it was queried, and its tickets with the times of their transactions. */
  datatype Batch = Batch(queried: int, stamps: seq<Stamp>)

  function Ids(stamps: seq<Stamp>): seq<TicketId> {
    seq(|stamps|, i requires 0 <= i < |stamps| => stamps[i].ticket)
  }

  function ExpireEach(db: Db, stamps: seq<Stamp>): Db {
    if stamps == [] then db
    else
      var last := stamps[|stamps| - 1];
      ExpireOne(ExpireEach(db, stamps[..|stamps| - 1]), last.ticket, last.at)
  }

  lemma {:induction false} StampPush(db: Db, stamps: seq<Stamp>, stamp: Stamp)
    ensures ExpireEach(db, stamps + [stamp]) == ExpireOne(ExpireEach(db, stamps), stamp.ticket, stamp.at)
    ensures Ids(stamps + [stamp]) == Ids(stamps) + [stamp.ticket]
  {
    assert (stamps + [stamp])[..|stamps|] == stamps;
  }

  /** The batches that the job may go through from `db`: full ones, and a last one that is not. */
  ghost predicate Clocked(db: Db, batches: seq<Batch>)
    decreases |batches|
  {
    && batches != []
    && var first := batches[0];
       && ValidPick(db, first.queried, Ids(first.stamps))
       && (forall i | 0 <= i < |first.stamps| :: first.queried <= first.stamps[i].at)
       && if |batches| == 1 then |first.stamps| < BATCH_SIZE
          else
            && |first.stamps| == BATCH_SIZE
            && (forall i | 0 <= i < |first.stamps| :: first.stamps[i].at <= batches[1].queried)
            && Clocked(ExpireEach(db, first.stamps), batches[1..])
  }

  function After(db: Db, batches: seq<Batch>): Db
    decreases |batches|
  {
    if batches == [] then db else After(ExpireEach(db, batches[0].stamps), batches[1..])
  }

  predicate SameRow(a: Ticket, b: Ticket) {
    a == b.(refundedAt := a.refundedAt)
  }

  /** Equal up to the refund times of the tickets. */
  ghost predicate Alike(a: Db, b: Db) {
    && a == b.(tickets := a.tickets)
    && a.tickets.Keys == b.tickets.Keys
    && forall t | t in a.tickets :: SameRow(a.tickets[t], b.tickets[t])
  }

  lemma {:induction false} AlikeStep(a: Db, b: Db, t: TicketId, at: int, now: int)
    requires Alike(a, b)
    ensures Alike(ExpireOne(a, t, at), ExpireOne(b, t, now))
  {
    if t in a.tickets {
      assert SameRow(a.tickets[t], b.tickets[t]);
    }
  }

  lemma {:induction false} AlikeEach(a: Db, b: Db, stamps: seq<Stamp>, now: int)
    requires Alike(a, b)
    ensures Alike(ExpireEach(a, stamps), ExpireAll(b, Ids(stamps), now))
  {
    if stamps != [] {
      var n := |stamps| - 1;
      AlikeEach(a, b, stamps[..n], now);
      assert Ids(stamps)[..n] == Ids(stamps[..n]);
      AlikeStep(ExpireEach(a, stamps[..n]), ExpireAll(b, Ids(stamps[..n]), now), stamps[n].ticket, stamps[n].at, now);
    }
  }

  /** The queries do not look at refund times. */
  lemma {:induction false} AlikeQueries(a: Db, b: Db, now: int)
    requires Alike(a, b)
    ensures Overdue(a, now) == Overdue(b, now) && Refundable(a, now) == Refundable(b, now)
  {
    forall t | t in a.tickets ensures IsOverdue(a.tickets[t], now) == IsOverdue(b.tickets[t], now) {
      assert SameRow(a.tickets[t], b.tickets[t]);
    }
  }

  /** What is overdue stays overdue as time passes. */
  lemma {:induction false} ProperLater(db: Db, order: seq<TicketId>, now: int, later: int)
    requires ProperOrder(db, order, now) && now <= later
    ensures ProperOrder(db, order, later)
  {
  }

  lemma {:induction false} QueriesInOrder(db: Db, batches: seq<Batch>)
    requires Clocked(db, batches)
    ensures batches[0].queried <= batches[|batches| - 1].queried
    decreases |batches|
  {
    if |batches| > 1 {
      QueriesInOrder(ExpireEach(db, batches[0].stamps), batches[1..]);
      assert batches[0].queried <= batches[0].stamps[0].at <= batches[1].queried;
    }
  }

  /**
   Under a moving clock the job ends up, refund times apart, in the state of the one-shot refund of
   all tickets that are overdue at the time of its last query.  `order` is the order of its refunds.
   */
  lemma {:induction false} ClockedIsOneShot(db: Db, like: Db, batches: seq<Batch>) returns (order: seq<TicketId>)
    requires Clocked(db, batches) && Alike(db, like)
    ensures CompleteOrder(like, order, batches[|batches| - 1].queried)
    ensures Alike(After(db, batches), ExpireAll(like, order, batches[|batches| - 1].queried))
    ensures OneShot(like, batches[|batches| - 1].queried, ExpireAll(like, order, batches[|batches| - 1].queried))
    decreases |batches|
  {
    var first, last := batches[0], batches[|batches| - 1].queried;
    var rows := Ids(first.stamps);
    AlikeQueries(db, like, first.queried);
    PickIsProper(like, first.queried, rows);
    QueriesInOrder(db, batches);
    ProperLater(like, rows, first.queried, last);
    AlikeEach(db, like, first.stamps, last);
    order := rows;
    if |batches| > 1 {
      var rest := ClockedIsOneShot(ExpireEach(db, first.stamps), ExpireAll(like, rows, last), batches[1..]);
      order := rows + rest;
      CompleteAfterBatch(like, last, rows, rest);
      assert batches[1..][|batches| - 2].queried == last;
    } else {
      assert After(db, batches) == After(ExpireEach(db, first.stamps), []);
    }
    CompleteOrderIsOneShot(like, order, last);
  }

  // ---- When the job ends ----

  function ActiveTickets(db: Db): set<TicketId> {
    set t | t in db.tickets && db.tickets[t].status == Active
  }

  lemma {:induction false} FailingGrows(db: Db, now: int, later: int)
    requires now <= later
    ensures Failing(db, now) <= Failing(db, later)
    ensures |Failing(db, now)| <= |Failing(db, later)|
  {
    SubsetSize(Failing(db, now), Failing(db, later));
  }

  /** A batch leaves the failing tickets as they are, at all later times. */
  lemma {:induction false} FailingStays(db: Db, queried: int, stamps: seq<Stamp>, later: int)
    requires ValidPick(db, queried, Ids(stamps)) && queried <= later
    ensures Failing(ExpireEach(db, stamps), later) == Failing(db, later)
  {
    var rows := Ids(stamps);
    PickIsProper(db, queried, rows);
    ProperLater(db, rows, queried, later);
    ExpireAllShot(db, rows, later);
    OverdueAfter(db, later, RefundedBy(db, rows, later), ExpireAll(db, rows, later));
    AlikeEach(db, db, stamps, later);
    AlikeQueries(ExpireEach(db, stamps), ExpireAll(db, rows, later), later);
  }

  /** Every full batch leaves fewer ACTIVE tickets, whatever becomes overdue meanwhile. */
  lemma {:induction false} ActiveShrinks(db: Db, queried: int, stamps: seq<Stamp>)
    requires ValidPick(db, queried, Ids(stamps)) && |stamps| == BATCH_SIZE
    requires |Failing(db, queried)| < BATCH_SIZE
    ensures ActiveTickets(ExpireEach(db, stamps)) < ActiveTickets(db)
  {
    var rows := Ids(stamps);
    var plain, after := ExpireAll(db, rows, queried), ExpireEach(db, stamps);
    PickIsProper(db, queried, rows);
    ExpireAllShot(db, rows, queried);
    AlikeEach(db, db, stamps, queried);
    var t := FullBatchProgresses(db, queried, rows);
    assert t in RefundedBy(db, rows, queried);
    forall x | x in after.tickets ensures x in db.tickets && (after.tickets[x].status == Active ==> db.tickets[x].status == Active) {
      assert SameRow(after.tickets[x], plain.tickets[x]);
    }
    assert SameRow(after.tickets[t], plain.tickets[t]);
    assert t in ActiveTickets(db) && t !in ActiveTickets(after);
  }

  /** Full batches, one after the other, each queried while fewer than 100 tickets fail. */
  ghost predicate Full(db: Db, batches: seq<Batch>)
    decreases |batches|
  {
    batches == [] ||
    var first := batches[0];
    && ValidPick(db, first.queried, Ids(first.stamps)) && |first.stamps| == BATCH_SIZE
    && |Failing(db, first.queried)| < BATCH_SIZE
    && Full(ExpireEach(db, first.stamps), batches[1..])
  }

  /** However the clock moves, there are no more full batches than ACTIVE tickets. */
  lemma {:induction false} FullBatchesAreBounded(db: Db, batches: seq<Batch>)
    requires Full(db, batches)
    ensures |batches| <= |ActiveTickets(db)|
    decreases |batches|
  {
    if batches != [] {
      var after := ExpireEach(db, batches[0].stamps);
      ActiveShrinks(db, batches[0].queried, batches[0].stamps);
      FullBatchesAreBounded(after, batches[1..]);
      var t :| t in ActiveTickets(db) && t !in ActiveTickets(after);
      SubsetSize(ActiveTickets(after), ActiveTickets(db) - {t});
    }
  }

  /** Full batches, one after the other, at any times. */
  ghost predicate AllFull(db: Db, batches: seq<Batch>)
    decreases |batches|
  {
    batches == [] ||
    var first := batches[0];
    && ValidPick(db, first.queried, Ids(first.stamps)) && |first.stamps| == BATCH_SIZE
    && AllFull(ExpireEach(db, first.stamps), batches[1..])
  }

  predicate WalletsForAll(db: Db) {
    forall t | t in db.tickets :: db.tickets[t].passenger in db.balances
  }

  lemma {:induction false} EachKeepsWallets(db: Db, stamps: seq<Stamp>)
    requires WalletsForAll(db)
    ensures WalletsForAll(ExpireEach(db, stamps))
  {
    if stamps != [] {
      EachKeepsWallets(db, stamps[..|stamps| - 1]);
    }
  }

  /** Where every passenger has a wallet nothing ever fails. */
  lemma {:induction false} AllFullIsFull(db: Db, batches: seq<Batch>)
    requires AllFull(db, batches) && WalletsForAll(db)
    ensures Full(db, batches)
    decreases |batches|
  {
    if batches != [] {
      assert Failing(db, batches[0].queried) == {};
      EachKeepsWallets(db, batches[0].stamps);
      AllFullIsFull(ExpireEach(db, batches[0].stamps), batches[1..]);
    }
  }

  /** From a query at time `now`, the job can still come to an end. */
  ghost predicate CanEnd(db: Db, now: int) {
    exists batches: seq<Batch> :: Clocked(db, batches) && batches[0].queried == now
  }

  lemma {:induction false} EndedFails(db: Db, batches: seq<Batch>)
    requires Clocked(db, batches)
    ensures |Failing(db, batches[0].queried)| < BATCH_SIZE
    decreases |batches|
  {
    var first := batches[0];
    if |batches| == 1 {
      FailingFits(db, first.queried, Ids(first.stamps));
    } else {
      var later := batches[1].queried;
      assert first.queried <= first.stamps[0].at <= later;
      EndedFails(ExpireEach(db, first.stamps), batches[1..]);
      FailingStays(db, first.queried, first.stamps, later);
      FailingGrows(db, first.queried, later);
    }
  }

  function AllAt(rows: seq<TicketId>, now: int): seq<Stamp> {
    seq(|rows|, i requires 0 <= i < |rows| => Stamp(rows[i], now))
  }

  lemma {:induction false} EndingBatches(db: Db, now: int) returns (batches: seq<Batch>)
    requires |Failing(db, now)| < BATCH_SIZE
    ensures Clocked(db, batches) && batches[0].queried == now
    decreases ActiveTickets(db)
  {
    var rows := SomePick(db, now);
    var stamps := AllAt(rows, now);
    assert Ids(stamps) == rows;
    if |rows| < BATCH_SIZE {
      LastBatch(db, now, stamps);
      batches := [Batch(now, stamps)];
    } else {
      ActiveShrinks(db, now, stamps);
      FailingStays(db, now, stamps, now);
      var rest := EndingBatches(ExpireEach(db, stamps), now);
      FullBatch(db, now, stamps, rest);
      batches := [Batch(now, stamps)] + rest;
    }
  }

  lemma {:induction false} SomePick(db: Db, now: int) returns (rows: seq<TicketId>)
    ensures ValidPick(db, now, rows)
  {
    var overdue := Overdue(db, now);
    rows := Enumerate(overdue, if |overdue| < BATCH_SIZE then |overdue| else BATCH_SIZE);
    if |overdue| < BATCH_SIZE {
      DistinctSize(rows);
      AllEnumerated((set x | x in rows), overdue);
    }
  }

  /**
   The bound on walletless passengers is exact, query by query: once 100 of them are overdue every
   later query returns a full batch as well and the job calls itself for ever; before that it can end,
   and `FullBatchesAreBounded` says that it does if the bound is never reached.
   */
  lemma {:induction false} EndsIffFewFailing(db: Db, now: int)
    ensures CanEnd(db, now) <==> |Failing(db, now)| < BATCH_SIZE
  {
    if |Failing(db, now)| < BATCH_SIZE {
      var batches := EndingBatches(db, now);
    } else if CanEnd(db, now) {
      var batches: seq<Batch> :| Clocked(db, batches) && batches[0].queried == now;
      EndedFails(db, batches);
    }
  }

  /** A refund time is as it was or taken by one of the job's own transactions. */
  ghost predicate StampedSince(db: Db, after: Db, since: int) {
    forall t | t in db.tickets ::
      && t in after.tickets
      && (after.tickets[t].refundedAt == db.tickets[t].refundedAt
          || (after.tickets[t].refundedAt.Some? && since <= after.tickets[t].refundedAt.value))
  }

  lemma {:induction false} EachStamped(db: Db, mid: Db, stamps: seq<Stamp>, since: int)
    requires StampedSince(db, mid, since) && forall i | 0 <= i < |stamps| :: since <= stamps[i].at
    ensures StampedSince(db, ExpireEach(mid, stamps), since)
  {
    if stamps != [] {
      EachStamped(db, mid, stamps[..|stamps| - 1], since);
    }
  }

  /** Every refund time that the job writes is one at which it was at work. */
  lemma {:induction false} ClockedStamps(db: Db, mid: Db, batches: seq<Batch>, since: int)
    requires Clocked(mid, batches) && StampedSince(db, mid, since) && since <= batches[0].queried
    ensures StampedSince(db, After(mid, batches), since)
    decreases |batches|
  {
    EachStamped(db, mid, batches[0].stamps, since);
    if |batches| > 1 {
      assert since <= batches[0].stamps[0].at;
      ClockedStamps(db, ExpireEach(mid, batches[0].stamps), batches[1..], since);
    }
  }

  // ---- Readings and batches ----

  /** `clock(i)` is the time at the `i`-th reading. */
  ghost predicate Ticking(clock: nat -> int) {
    forall i: nat, j: nat | i <= j :: clock(i) <= clock(j)
  }

  /** The times of the transactions are the readings from the `tick`-th on. */
  ghost predicate Stamped(stamps: seq<Stamp>, clock: nat -> int, tick: nat) {
    forall i | 0 <= i < |stamps| :: stamps[i].at == clock(tick + i)
  }

  /** At no reading from the `tick`-th on do 100 tickets fail. */
  ghost predicate FewFail(db: Db, clock: nat -> int, tick: nat) {
    forall i: nat | tick <= i :: |Failing(db, clock(i))| < BATCH_SIZE
  }

  lemma {:induction false} StampedBetween(stamps: seq<Stamp>, clock: nat -> int, tick: nat)
    requires Ticking(clock) && Stamped(stamps, clock, tick + 1)
    ensures forall i | 0 <= i < |stamps| :: clock(tick) <= stamps[i].at <= clock(tick + 1 + |stamps|)
  {
  }

  lemma {:induction false} FewFailStays(db: Db, stamps: seq<Stamp>, clock: nat -> int, tick: nat, next: nat)
    requires Ticking(clock) && FewFail(db, clock, tick) && tick <= next
    requires ValidPick(db, clock(tick), Ids(stamps))
    ensures FewFail(ExpireEach(db, stamps), clock, next)
  {
    forall i: nat | next <= i ensures |Failing(ExpireEach(db, stamps), clock(i))| < BATCH_SIZE {
      FailingStays(db, clock(tick), stamps, clock(i));
    }
  }

  /** Before its turn, a processed ticket has the passenger and fare that the query read. */
  lemma {:induction false} StampStep(db: Db, order: seq<TicketId>, stamps: seq<Stamp>, now: int)
    requires order != [] && ProperOrder(db, order, now) && Ids(stamps) == order[..|order| - 1]
    ensures var t := order[|order| - 1];
            var mid := ExpireEach(db, stamps);
            && t in db.tickets && t in mid.tickets && SameRow(mid.tickets[t], db.tickets[t])
            && mid.balances.Keys == db.balances.Keys
            && |RefundedBy(db, order, now)|
            == |RefundedBy(db, order[..|order| - 1], now)| + if db.tickets[t].passenger in db.balances then 1 else 0
  {
    BatchStep(db, order, now);
    AlikeEach(db, db, stamps, now);
    var t := order[|order| - 1];
    assert SameRow(ExpireEach(db, stamps).tickets[t], ExpireAll(db, order[..|order| - 1], now).tickets[t]);
  }

  /** `after` is the one-shot refund of `before` as of `last`, with refund times no earlier than `since`. */
  ghost predicate RefundedAsOf(before: Db, after: Db, since: int, last: int) {
    && StampedSince(before, after, since)
    && exists order :: CompleteOrder(before, order, last) && Alike(after, ExpireAll(before, order, last))
  }

  lemma {:induction false} JobOutcome(db: Db, batches: seq<Batch>)
    requires Clocked(db, batches)
    ensures RefundedAsOf(db, After(db, batches), batches[0].queried, batches[|batches| - 1].queried)
  {
    var order := ClockedIsOneShot(db, db, batches);
    ClockedStamps(db, db, batches, batches[0].queried);
  }

  lemma {:induction false} LastBatch(db: Db, now: int, stamps: seq<Stamp>)
    requires ValidPick(db, now, Ids(stamps)) && |stamps| < BATCH_SIZE
    requires forall i | 0 <= i < |stamps| :: now <= stamps[i].at
    ensures Clocked(db, [Batch(now, stamps)])
    ensures After(db, [Batch(now, stamps)]) == ExpireEach(db, stamps)
  {
    assert [Batch(now, stamps)][1..] == [];
  }

  lemma {:induction false} FullBatch(db: Db, now: int, stamps: seq<Stamp>, rest: seq<Batch>)
    requires ValidPick(db, now, Ids(stamps)) && |stamps| == BATCH_SIZE
    requires Clocked(ExpireEach(db, stamps), rest)
    requires forall i | 0 <= i < |stamps| :: now <= stamps[i].at <= rest[0].queried
    ensures Clocked(db, [Batch(now, stamps)] + rest)
    ensures After(db, [Batch(now, stamps)] + rest) == After(ExpireEach(db, stamps), rest)
  {
    assert ([Batch(now, stamps)] + rest)[1..] == rest;
  }
}
