/**
 Batches sent in any order.  Each batch is one driver's.  Whether crashes, resends and reordering show
 can be read off the batches: a contest inside one batch is settled by the batch itself.
 */
module AnyOrder {
  import opened Wrappers
  import opened Store
  import opened Sync
  import opened Convergence
  import opened Contests
  import opened Resend

  /** The boarding scan comes first in every batch that holds an inspection in its place. */
  predicate Certain(batches: seq<Batch>, p: Presented) {
    forall k | 0 <= k < |batches| && p.(isInspection := true) in batches[k] :: LeadsIn(batches[k], p)
  }

  /** It does so, or is alone, in one of the batches that hold it. */
  predicate Possible(batches: seq<Batch>, p: Presented) {
    exists k | 0 <= k < |batches| :: LeadsIn(batches[k], p)
  }

  /** All scans of the batches. */
  function AllScans(batches: seq<Batch>): set<Presented> {
    set k, p | 0 <= k < |batches| && p in batches[k] :: p
  }

  function PossibleTimes(db: Db, batches: seq<Batch>, t: TicketId): set<int> {
    set p | p in AllScans(batches) && Boards(db, p, t) && Possible(batches, p) :: p.scannedAt
  }

  function CertainTimes(db: Db, batches: seq<Batch>, t: TicketId): set<int> {
    set p | p in AllScans(batches) && Boards(db, p, t) && Certain(batches, p) :: p.scannedAt
  }

  /** Every boarding scan that may get through comes no earlier than a use that is certain. */
  predicate BatchesDecided(db: Db, batches: seq<Batch>) {
    forall t, x | t in db.tickets && x in PossibleTimes(db, batches, t) ::
      Preceded(x, UseTimes(db.tickets[t], CertainTimes(db, batches, t)))
  }

  // ---- What gets through lies between certain and possible ----

  lemma {:induction false} OnlyPossibleApplies(batches: seq<Batch>, history: seq<seq<Delivery>>, p: Presented)
    requires AtLeastOnce(batches, history) && Applies(Flatten(history), p)
    ensures Possible(batches, p) && p in AllScans(batches)
  {
    FlattenApplies(history, p);
    var j: nat :| AppliesAt(history, p, j);
    assert AttemptAtSome(batches, history[j]);
    var k :| 0 <= k < |batches| && AttemptAt(batches[k], history[j]);
    AppliesLeadsIn(batches[k], history[j], p);
    assert p in batches[k];
  }

  /** The first attempt that hides a certain scan has got it through. */
  lemma {:induction false} CertainApplies(batches: seq<Batch>, history: seq<seq<Delivery>>, p: Presented)
    requires AtLeastOnce(batches, history) && !p.isInspection && Certain(batches, p) && p in AllScans(batches)
    ensures Applies(Flatten(history), p)
  {
    FlattenApplies(history, p);
    var k :| 0 <= k < |batches| && p in batches[k];
    assert DeliveredWhole(batches[k], history);
    var w :| 0 <= w < |history| && Whole(batches[k], history[w]);
    if Unhidden(history[w], p) {
      UnhiddenWhole(batches[k], history[w], p);
      var j := FirstApplies(batches, history, p, w);
    } else {
      HiddenApplies(batches, history, p, w);
      var j := FirstApplies(batches, history, p, w);
    }
  }

  lemma {:induction false} UnhiddenWhole(batch: Batch, attempt: seq<Delivery>, p: Presented)
    requires Whole(batch, attempt) && p in batch && Unhidden(attempt, p)
    ensures Applies(attempt, p)
  {
    var i :| 0 <= i < |batch| && batch[i] == p;
    assert attempt[i].scan == p && Unhidden(attempt[..i], p);
  }

  lemma {:induction false} HiddenApplies(batches: seq<Batch>, history: seq<seq<Delivery>>, p: Presented, i: nat)
    requires AtLeastOnce(batches, history) && Certain(batches, p)
    requires i < |history| && !Unhidden(history[i], p)
    ensures Applies(history[i], p)
  {
    assert AttemptAtSome(batches, history[i]);
    var k :| 0 <= k < |batches| && AttemptAt(batches[k], history[i]);
    var d :| d in history[i] && Hides(d, p);
    assert p.(isInspection := true) in batches[k];
    LeadsApplies(batches[k], history[i], p);
  }

  lemma {:induction false} FirstApplies(batches: seq<Batch>, history: seq<seq<Delivery>>, p: Presented, w: nat)
    returns (j: nat)
    requires AtLeastOnce(batches, history) && Certain(batches, p) && w < |history| && Applies(history[w], p)
    ensures AppliesAt(history, p, j)
    decreases w
  {
    j := w;
    if !UnhiddenAmong(history[..w], p) {
      var i :| 0 <= i < w && !Unhidden(history[..w][i], p);
      HiddenApplies(batches, history, p, i);
      j := FirstApplies(batches, history, p, i);
    }
  }

  lemma {:induction false} AppliedWithin(db: Db, batches: seq<Batch>, history: seq<seq<Delivery>>, t: TicketId)
    requires AtLeastOnce(batches, history)
    ensures CertainTimes(db, batches, t) <= AppliedTimes(db, Flatten(history), t) <= PossibleTimes(db, batches, t)
  {
    var ds := Flatten(history);
    forall x | x in CertainTimes(db, batches, t) ensures x in AppliedTimes(db, ds, t) {
      var p :| p in AllScans(batches) && Boards(db, p, t) && Certain(batches, p) && p.scannedAt == x;
      CertainApplies(batches, history, p);
      var i :| 0 <= i < |ds| && ds[i].scan == p;
      assert ds[i] in ds;
    }
    forall x | x in AppliedTimes(db, ds, t) ensures x in PossibleTimes(db, batches, t) {
      var d :| d in ds && Boards(db, d.scan, t) && Applies(ds, d.scan) && d.scan.scannedAt == x;
      OnlyPossibleApplies(batches, history, d.scan);
    }
  }

  // ---- Decided batches converge ----

  lemma {:induction false} DecidedRows(db: Db, batches: seq<Batch>, history: seq<seq<Delivery>>, t: TicketId)
    requires AtLeastOnce(batches, history) && BatchesDecided(db, batches) && RefundsHaveWallets(db) && t in db.tickets
    ensures t in DeliverAll(db, Flatten(history)).tickets
    ensures Settles(db.tickets[t], PossibleTimes(db, batches, t), DeliverAll(db, Flatten(history)).tickets[t])
  {
    RunConverges(db, Flatten(history));
    AppliedWithin(db, batches, history, t);
    DecidedSettles(db.tickets[t], CertainTimes(db, batches, t), AppliedTimes(db, Flatten(history), t),
                   PossibleTimes(db, batches, t), DeliverAll(db, Flatten(history)).tickets[t]);
  }

  /** At-least-once delivery of decided batches, in any order, behaves as exactly-once. */
  lemma {:induction false} AtLeastOnceIsExactlyOnce(
    db: Db, batches: seq<Batch>, history: seq<seq<Delivery>>, clean: seq<seq<Delivery>>)
    requires AtLeastOnce(batches, history) && ExactlyOnce(batches, clean)
    requires BatchesDecided(db, batches) && RefundsHaveWallets(db)
    ensures SameOutcome(db, Flatten(clean), Flatten(history))
  {
    var x, y := DeliverAll(db, Flatten(clean)), DeliverAll(db, Flatten(history));
    ExactlyIsAtLeast(batches, clean);
    RunGrows(db, Flatten(clean));
    RunGrows(db, Flatten(history));
    forall t | t in db.tickets ensures x.tickets[t] == y.tickets[t] {
      DecidedRows(db, batches, clean, t);
      DecidedRows(db, batches, history, t);
      SettlesUniquely(db.tickets[t], PossibleTimes(db, batches, t), x.tickets[t], y.tickets[t]);
    }
    SameTicketsSuffice(db, Flatten(clean), Flatten(history));
  }

  // ---- Undecided ones do not ----

  /** Every batch holds the scans of one driver. */
  predicate OneDriverEach(batches: seq<Batch>) {
    forall k, i, j | 0 <= k < |batches| && 0 <= i < |batches[k]| && 0 <= j < |batches[k]| ::
      batches[k][i].driver == batches[k][j].driver
  }

  /** Delivered whole and first, the batch hides a boarding scan of `t` taken at `at`. */
  predicate Spoils(batch: Batch, t: TicketId, at: int) {
    exists p | p in batch :: p.isInspection && p.ticket == t && p.scannedAt == at
                             && !LeadsIn(batch, p.(isInspection := false))
  }

  function Deliveries(batch: Batch): seq<Delivery> {
    seq(|batch|, i requires 0 <= i < |batch| => Delivery(batch[i], 0, None, false))
  }

  function AllOf(batches: seq<Batch>): seq<seq<Delivery>> {
    seq(|batches|, k requires 0 <= k < |batches| => Deliveries(batches[k]))
  }

  /** The batches that spoil the boarding scans of `t` at `at`. */
  function Spoilers(batches: seq<Batch>, t: TicketId, at: int): seq<Batch> {
    if batches == [] then []
    else
      var last := batches[|batches| - 1];
      Spoilers(batches[..|batches| - 1], t, at) + if Spoils(last, t, at) then [last] else []
  }

  lemma {:induction false} InSpoilers(batches: seq<Batch>, t: TicketId, at: int, b: Batch)
    ensures b in Spoilers(batches, t, at) <==> b in batches && Spoils(b, t, at)
  {
    if batches != [] {
      InSpoilers(batches[..|batches| - 1], t, at, b);
      assert batches == batches[..|batches| - 1] + [batches[|batches| - 1]];
    }
  }

  lemma {:induction false} DeliveredIsWhole(batch: Batch)
    ensures Whole(batch, Deliveries(batch))
  {
  }

  /** Some batches first, then all of them. */
  lemma {:induction false} FirstThenAll(batches: seq<Batch>, first: seq<Batch>)
    requires forall b | b in first :: b in batches
    ensures AtLeastOnce(batches, AllOf(first) + AllOf(batches))
  {
    var history := AllOf(first) + AllOf(batches);
    forall i | 0 <= i < |history| ensures AttemptAtSome(batches, history[i]) {
      var b := if i < |first| then first[i] else batches[i - |first|];
      assert b in batches;
      var k :| 0 <= k < |batches| && batches[k] == b;
      DeliveredIsWhole(b);
      assert AttemptAt(batches[k], history[i]);
    }
    forall k | 0 <= k < |batches| ensures DeliveredWhole(batches[k], history) {
      DeliveredIsWhole(batches[k]);
      assert history[|first| + k] == Deliveries(batches[k]);
    }
  }

  /** With a batch in front in which it leads, a boarding scan gets through. */
  lemma {:induction false} LeaderApplies(batches: seq<Batch>, k: nat, p: Presented)
    requires k < |batches| && LeadsIn(batches[k], p)
    ensures Applies(Flatten(AllOf([batches[k]]) + AllOf(batches)), p)
  {
    var history := AllOf([batches[k]]) + AllOf(batches);
    DeliveredIsWhole(batches[k]);
    LeadsApplies(batches[k], Deliveries(batches[k]), p);
    FlattenApplies(history, p);
    assert history[0] == Deliveries(batches[k]) && history[..0] == [];
    assert AppliesAt(history, p, 0);
  }

  /** With the spoilers in front, no uncertain boarding scan of `t` at `at` gets through. */
  lemma {:induction false} SpoiltDoesNotApply(batches: seq<Batch>, p: Presented)
    requires OneDriverEach(batches) && !p.isInspection && !Certain(batches, p)
    ensures !Applies(Flatten(AllOf(Spoilers(batches, p.ticket, p.scannedAt)) + AllOf(batches)), p)
  {
    var spoilers := Spoilers(batches, p.ticket, p.scannedAt);
    var history := AllOf(spoilers) + AllOf(batches);
    var q := p.(isInspection := true);
    var k :| 0 <= k < |batches| && q in batches[k] && !LeadsIn(batches[k], p);
    assert q.(isInspection := false) == p;
    assert Spoils(batches[k], p.ticket, p.scannedAt);
    InSpoilers(batches, p.ticket, p.scannedAt, batches[k]);
    var w :| 0 <= w < |spoilers| && spoilers[w] == batches[k];
    DeliveredIsWhole(batches[k]);
    WholeHides(batches[k], Deliveries(batches[k]), p);
    assert history[w] == Deliveries(batches[k]);
    FlattenApplies(history, p);
    forall j: nat | j < |history| ensures !AppliesAt(history, p, j) {
      if j < |spoilers| {
        SpoilerHidesItsOwn(batches, spoilers[j], p);
      } else {
        assert history[..j][w] == history[w];
      }
    }
  }

  /** A spoiler does not get a scan of its own driver through. */
  lemma {:induction false} SpoilerHidesItsOwn(batches: seq<Batch>, b: Batch, p: Presented)
    requires OneDriverEach(batches) && !p.isInspection && b in Spoilers(batches, p.ticket, p.scannedAt)
    ensures !Applies(Deliveries(b), p)
  {
    InSpoilers(batches, p.ticket, p.scannedAt, b);
    var k :| 0 <= k < |batches| && batches[k] == b;
    var q :| q in b && q.isInspection && q.ticket == p.ticket && q.scannedAt == p.scannedAt
             && !LeadsIn(b, q.(isInspection := false));
    if p in b {
      var i :| 0 <= i < |b| && b[i] == p;
      var j :| 0 <= j < |b| && b[j] == q;
      assert batches[k][i].driver == batches[k][j].driver;
      assert q.(isInspection := false) == p;
    }
    if Applies(Deliveries(b), p) {
      DeliveredIsWhole(b);
      AppliesLeadsIn(b, Deliveries(b), p);
    }
  }

  /** Every at-least-once delivery of the batches ends with the same tickets. */
  ghost predicate ResendFree(db: Db, batches: seq<Batch>) {
    forall x, y | AtLeastOnce(batches, x) && AtLeastOnce(batches, y) :: SameTickets(db, Flatten(x), Flatten(y))
  }

  lemma {:induction false} LeastBelow(s: set<int>, x: int) returns (m: int)
    requires x in s
    ensures IsLeast(m, s)
    decreases |s|
  {
    m := x;
    if y :| y in s && y < x {
      m := LeastBelow(s - {x}, y);
      forall z | z in s ensures m <= z {
        assert z == x || z in s - {x};
      }
    }
  }

  lemma {:induction false} EarlyApplies(db: Db, batches: seq<Batch>, t: TicketId, at: int)
    returns (early: seq<seq<Delivery>>)
    requires at in PossibleTimes(db, batches, t)
    ensures AtLeastOnce(batches, early) && at in AppliedTimes(db, Flatten(early), t)
  {
    var p :| p in AllScans(batches) && Boards(db, p, t) && Possible(batches, p) && p.scannedAt == at;
    var k :| 0 <= k < |batches| && LeadsIn(batches[k], p);
    early := AllOf([batches[k]]) + AllOf(batches);
    FirstThenAll(batches, [batches[k]]);
    LeaderApplies(batches, k, p);
    var i :| 0 <= i < |Flatten(early)| && Flatten(early)[i].scan == p;
    assert Flatten(early)[i] in Flatten(early);
  }

  lemma {:induction false} LateDoesNotApply(db: Db, batches: seq<Batch>, t: TicketId, at: int)
    returns (late: seq<seq<Delivery>>)
    requires OneDriverEach(batches) && at !in CertainTimes(db, batches, t)
    ensures AtLeastOnce(batches, late) && at !in AppliedTimes(db, Flatten(late), t)
  {
    var spoilers := Spoilers(batches, t, at);
    late := AllOf(spoilers) + AllOf(batches);
    forall b | b in spoilers ensures b in batches {
      InSpoilers(batches, t, at, b);
    }
    FirstThenAll(batches, spoilers);
    forall p | Boards(db, p, t) && p.scannedAt == at ensures !Applies(Flatten(late), p) {
      if Applies(Flatten(late), p) {
        OnlyPossibleApplies(batches, late, p);
        SpoiltDoesNotApply(batches, p);
      }
    }
  }

  /** A row on which both outcomes settle records a use by `at` that is not one of the scans'. */
  lemma {:induction false} SettlingBoth(row: Ticket, early: set<int>, late: set<int>, after: Ticket, at: int)
    requires Settles(row, early, after) && Settles(row, late, after)
    requires at in early && at !in late && forall x | x in late :: at <= x
    ensures Preceded(at, UseTimes(row, {}))
  {
    assert after.usedAt.value <= at;
    assert after.usedAt.value in UseTimes(row, {});
  }

  /** The earliest possible boarding of a ticket is preceded by a certain use. */
  lemma {:induction false} LeastIsPreceded(db: Db, batches: seq<Batch>, t: TicketId, at: int)
    requires OneDriverEach(batches) && RefundsHaveWallets(db) && ResendFree(db, batches) && t in db.tickets
    requires IsLeast(at, PossibleTimes(db, batches, t))
    ensures Preceded(at, UseTimes(db.tickets[t], CertainTimes(db, batches, t)))
  {
    if at in CertainTimes(db, batches, t) {
      assert at in UseTimes(db.tickets[t], CertainTimes(db, batches, t));
    } else {
      var early := EarlyApplies(db, batches, t, at);
      var late := LateDoesNotApply(db, batches, t, at);
      RunConverges(db, Flatten(early));
      RunConverges(db, Flatten(late));
      AppliedWithin(db, batches, late, t);
      assert SameTickets(db, Flatten(early), Flatten(late));
      SettlingBoth(db.tickets[t], AppliedTimes(db, Flatten(early), t), AppliedTimes(db, Flatten(late), t),
                   DeliverAll(db, Flatten(early)).tickets[t], at);
      var y :| y in UseTimes(db.tickets[t], {}) && y <= at;
      assert y in UseTimes(db.tickets[t], CertainTimes(db, batches, t));
    }
  }

  lemma {:induction false} ResendFreeIsDecided(db: Db, batches: seq<Batch>)
    requires OneDriverEach(batches) && RefundsHaveWallets(db) && ResendFree(db, batches)
    ensures BatchesDecided(db, batches)
  {
    forall t, x | t in db.tickets && x in PossibleTimes(db, batches, t)
      ensures Preceded(x, UseTimes(db.tickets[t], CertainTimes(db, batches, t)))
    {
      var m := LeastBelow(PossibleTimes(db, batches, t), x);
      LeastIsPreceded(db, batches, t, m);
      var y :| y in UseTimes(db.tickets[t], CertainTimes(db, batches, t)) && y <= m;
    }
  }

  /**
   For batches of one driver each: crashes, resends and the order of batches make no difference iff
   every boarding scan that may get through comes no earlier than a use that is certain.
   */
  lemma {:induction false} ResendFreeIff(db: Db, batches: seq<Batch>)
    requires OneDriverEach(batches) && RefundsHaveWallets(db)
    ensures ResendFree(db, batches) <==> BatchesDecided(db, batches)
  {
    if ResendFree(db, batches) {
      ResendFreeIsDecided(db, batches);
    }
    if BatchesDecided(db, batches) {
      forall x, y | AtLeastOnce(batches, x) && AtLeastOnce(batches, y)
        ensures SameTickets(db, Flatten(x), Flatten(y))
      {
        var clean := AllOf(batches);
        forall k | 0 <= k < |batches| ensures Whole(batches[k], clean[k]) {
          DeliveredIsWhole(batches[k]);
        }
        AtLeastOnceIsExactlyOnce(db, batches, x, clean);
        AtLeastOnceIsExactlyOnce(db, batches, y, clean);
      }
    }
  }
}
