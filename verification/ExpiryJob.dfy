/** The expiry job: its batch loop, and its call of itself after every full batch. */
module ExpiryJob {
  import opened Store
  import opened Expiry
  import opened JobClock
  import opened JobEffects

  method ExpireBatch(db: Database, rows: seq<TicketId>, queried: int, clock: nat -> int, tick: nat)
    returns (processed: nat, ghost stamps: seq<Stamp>)
    requires ValidPick(db.Rows(), queried, rows)
    modifies db
    ensures Ids(stamps) == rows && |stamps| == |rows|
    ensures Stamped(stamps, clock, tick)
    ensures db.Rows() == ExpireEach(old(db.Rows()), stamps)
    ensures processed == |RefundedBy(old(db.Rows()), rows, queried)|
    ensures db.trips == old(db.trips)
  {
    var read := db.tickets;
    ghost var before := db.Rows();
    processed, stamps := 0, [];
    for i := 0 to |rows|
      invariant |stamps| == i && Ids(stamps) == rows[..i]
      invariant Stamped(stamps, clock, tick)
      invariant db.Rows() == ExpireEach(before, stamps)
      invariant processed == |RefundedBy(before, rows[..i], queried)|
      invariant db.trips == old(db.trips)
    {
      assert rows[..i + 1][..i] == rows[..i];
      StampStep(before, rows[..i + 1], stamps, queried);
      ghost var stamp := Stamp(rows[i], clock(tick + i));
      StampPush(before, stamps, stamp);
      var ok := RefundExpired(db, rows[i], read[rows[i]], clock(tick + i));
      stamps := stamps + [stamp];
      if ok {
        processed := processed + 1;
      }
    }
    assert rows[..|rows|] == rows;
  }

  /**
   The job ends, for any choice of rows by its queries and however the clock moves, if fewer than 100
   walletless tickets are overdue at any reading; and its effect is the one-shot refund as of its last
   query, up to refund times.
   */
  method HandleTicketExpiry(db: Database, clock: nat -> int, tick: nat)
    returns (next: nat, ghost batches: seq<Batch>)
    requires Ticking(clock)
    requires FewFail(db.Rows(), clock, tick)
    modifies db
    ensures Clocked(old(db.Rows()), batches) && batches[0].queried == clock(tick)
    ensures db.Rows() == After(old(db.Rows()), batches)
    ensures RefundedAsOf(old(db.Rows()), db.Rows(), clock(tick), batches[|batches| - 1].queried)
    ensures Swept(old(db.Rows()), db.Rows(), batches[|batches| - 1].queried)
    ensures db.trips == old(db.trips)
    decreases ActiveTickets(db.Rows())
  {
    ghost var before := db.Rows();
    var now := clock(tick);
    next := tick + 1;
    var expired := FindOverdue(db, now);
    if |expired| == 0 {
      assert Ids([]) == expired;
      LastBatch(before, now, []);
      batches := [Batch(now, [])];
    } else {
      var _, stamps := ExpireBatch(db, expired, now, clock, next);
      StampedBetween(stamps, clock, tick);
      next := next + |expired|;
      if |expired| == BATCH_SIZE {
        ActiveShrinks(before, now, stamps);
        FewFailStays(before, stamps, clock, tick, next);
        ghost var rest;
        next, rest := HandleTicketExpiry(db, clock, next);
        FullBatch(before, now, stamps, rest);
        batches := [Batch(now, stamps)] + rest;
      } else {
        LastBatch(before, now, stamps);
        batches := [Batch(now, stamps)];
      }
    }
    JobOutcome(before, batches);
    JobSweeps(before, batches, batches[|batches| - 1].queried);
  }
}
