/**
 What convergence means for drivers' devices.  Batches may be cut short by crashes and sent again any
 number of times, and the tickets and wallets end as after one clean delivery of each, as long as
 batches that contest one another are sent one after the other.  `AnyOrder` drops that condition.
 */
module Resend {
  import opened Wrappers
  import opened Store
  import opened Sync
  import opened Convergence

  // ---- Crashes and whole-batch resends ----

  type Batch = seq<Presented>

  /** A delivery of a batch that was stopped after some scan, possibly in the middle of it. */
  predicate AttemptAt(batch: Batch, attempt: seq<Delivery>) {
    && |attempt| <= |batch|
    && (forall i | 0 <= i < |attempt| :: attempt[i].scan == batch[i])
    && forall i | 0 <= i < |attempt| - 1 :: !attempt[i].torn
  }

  predicate Whole(batch: Batch, attempt: seq<Delivery>) {
    AttemptAt(batch, attempt) && |attempt| == |batch| && forall i | 0 <= i < |attempt| :: !attempt[i].torn
  }

  function Flatten(history: seq<seq<Delivery>>): seq<Delivery> {
    if history == [] then [] else Flatten(history[..|history| - 1]) + history[|history| - 1]
  }

  lemma {:induction false} InFlatten(history: seq<seq<Delivery>>, d: Delivery)
    ensures d in Flatten(history) <==> exists i | 0 <= i < |history| :: d in history[i]
  {
    if history != [] {
      InFlatten(history[..|history| - 1], d);
    }
  }

  predicate AttemptAtSome(batches: seq<Batch>, attempt: seq<Delivery>) {
    exists k | 0 <= k < |batches| :: AttemptAt(batches[k], attempt)
  }

  predicate DeliveredWhole(batch: Batch, history: seq<seq<Delivery>>) {
    exists i | 0 <= i < |history| :: Whole(batch, history[i])
  }

  /** Any number of attempts in any order, at least one of which delivers each batch whole. */
  predicate AtLeastOnce(batches: seq<Batch>, history: seq<seq<Delivery>>) {
    && (forall i {:trigger AttemptAtSome(batches, history[i])} | 0 <= i < |history| :: AttemptAtSome(batches, history[i]))
    && forall k {:trigger DeliveredWhole(batches[k], history)} | 0 <= k < |batches| :: DeliveredWhole(batches[k], history)
  }

  /** One crash-free delivery of each batch. */
  predicate ExactlyOnce(batches: seq<Batch>, clean: seq<seq<Delivery>>) {
    |clean| == |batches| && forall k | 0 <= k < |batches| :: Whole(batches[k], clean[k])
  }

  lemma {:induction false} ExactlyIsAtLeast(batches: seq<Batch>, clean: seq<seq<Delivery>>)
    requires ExactlyOnce(batches, clean)
    ensures AtLeastOnce(batches, clean)
  {
    forall i | 0 <= i < |clean| ensures AttemptAtSome(batches, clean[i]) {
      assert AttemptAt(batches[i], clean[i]);
    }
    forall k | 0 <= k < |batches| ensures DeliveredWhole(batches[k], clean) {
      assert Whole(batches[k], clean[k]);
    }
  }

  // ---- Batches in order ----

  /** One batch holds a boarding scan and the other an inspection in its place. */
  predicate Rivals(a: Batch, b: Batch) {
    exists p | p in a :: p.(isInspection := !p.isInspection) in b
  }

  /** Attempt `j` is one at some batch, and the earlier batches that contest it were delivered before. */
  predicate InTurn(batches: seq<Batch>, history: seq<seq<Delivery>>, j: nat)
    requires j < |history|
  {
    exists k | 0 <= k < |batches| :: AttemptAt(batches[k], history[j]) && Awaited(batches, history[..j], k)
  }

  predicate Awaited(batches: seq<Batch>, before: seq<seq<Delivery>>, k: nat)
    requires k < |batches|
  {
    forall h {:trigger DeliveredWhole(batches[h], before)} | 0 <= h < k ::
      Rivals(batches[h], batches[k]) ==> DeliveredWhole(batches[h], before)
  }

  /** Every batch is delivered whole at least once, contesting ones in order, others in any. */
  predicate AtLeastOnceInOrder(batches: seq<Batch>, history: seq<seq<Delivery>>) {
    && (forall j {:trigger InTurn(batches, history, j)} | 0 <= j < |history| :: InTurn(batches, history, j))
    && forall k {:trigger DeliveredWhole(batches[k], history)} | 0 <= k < |batches| :: DeliveredWhole(batches[k], history)
  }

  /** In one clean delivery of the batches in order, no inspection in its place comes before `p`. */
  predicate Leads(batches: seq<Batch>, p: Presented, k: nat) {
    && k < |batches|
    && LeadsIn(batches[k], p)
    && forall h | 0 <= h < k :: p.(isInspection := true) !in batches[h]
  }

  predicate LeadsIn(batch: Batch, p: Presented) {
    exists i | 0 <= i < |batch| :: batch[i] == p && p.(isInspection := true) !in batch[..i]
  }

  predicate UnhiddenAmong(history: seq<seq<Delivery>>, p: Presented) {
    forall j | 0 <= j < |history| :: Unhidden(history[j], p)
  }

  /** Attempt `j` is the first to get `p` through. */
  predicate AppliesAt(history: seq<seq<Delivery>>, p: Presented, j: nat) {
    j < |history| && Applies(history[j], p) && UnhiddenAmong(history[..j], p)
  }

  lemma {:induction false} FlattenUnhidden(history: seq<seq<Delivery>>, p: Presented)
    ensures Unhidden(Flatten(history), p) <==> UnhiddenAmong(history, p)
  {
    forall d ensures d in Flatten(history) <==> exists i | 0 <= i < |history| :: d in history[i] {
      InFlatten(history, d);
    }
  }

  lemma {:induction false} FlattenApplies(history: seq<seq<Delivery>>, p: Presented)
    ensures Applies(Flatten(history), p) <==> exists j: nat :: AppliesAt(history, p, j)
  {
    if history != [] {
      var n := |history| - 1;
      var prefix := history[..n];
      FlattenApplies(prefix, p);
      FlattenUnhidden(prefix, p);
      AppliesConcat(Flatten(prefix), history[n], p);
      forall j: nat | j < n ensures AppliesAt(history, p, j) <==> AppliesAt(prefix, p, j) {
        assert prefix[..j] == history[..j] && prefix[j] == history[j];
      }
      assert AppliesAt(history, p, n) <==> Applies(history[n], p) && UnhiddenAmong(prefix, p);
      assert forall j: nat :: AppliesAt(history, p, j) ==> j < n || j == n;
    }
  }

  /** A scan that applies in an attempt leads in its batch. */
  lemma {:induction false} AppliesLeadsIn(batch: Batch, attempt: seq<Delivery>, p: Presented)
    requires AttemptAt(batch, attempt) && Applies(attempt, p)
    ensures LeadsIn(batch, p)
  {
    var i :| 0 <= i < |attempt| && attempt[i].scan == p && Unhidden(attempt[..i], p);
    forall j | 0 <= j < i ensures batch[j] != p.(isInspection := true) {
      assert attempt[j] in attempt[..i];
    }
    assert batch[i] == p;
  }

  /** A scan that leads in a batch applies in any attempt that gets as far as an inspection hiding it. */
  lemma {:induction false} LeadsApplies(batch: Batch, attempt: seq<Delivery>, p: Presented)
    requires AttemptAt(batch, attempt) && LeadsIn(batch, p)
    requires |attempt| == |batch| || !Unhidden(attempt, p)
    ensures Applies(attempt, p)
  {
    var i :| 0 <= i < |batch| && batch[i] == p && p.(isInspection := true) !in batch[..i];
    if d :| d in attempt && Hides(d, p) {
      var j :| 0 <= j < |attempt| && attempt[j] == d;
      assert j < i ==> batch[j] in batch[..i];
    }
    forall j | 0 <= j < i && j < |attempt| ensures !Hides(attempt[j], p) {
      assert batch[j] in batch[..i];
    }
    if i < |attempt| {
      assert attempt[i].scan == p && Unhidden(attempt[..i], p);
    }
  }

  lemma {:induction false} WholeHides(batch: Batch, attempt: seq<Delivery>, p: Presented)
    requires Whole(batch, attempt) && p.(isInspection := true) in batch
    ensures !Unhidden(attempt, p)
  {
    var i :| 0 <= i < |batch| && batch[i] == p.(isInspection := true);
    assert attempt[i] in attempt && Hides(attempt[i], p);
  }

  lemma {:induction false} AppliedLeads(batches: seq<Batch>, history: seq<seq<Delivery>>, p: Presented, j: nat)
    returns (k: nat)
    requires !p.isInspection && AppliesAt(history, p, j) && InTurn(batches, history, j)
    ensures Leads(batches, p, k)
  {
    k :| 0 <= k < |batches| && AttemptAt(batches[k], history[j]) && Awaited(batches, history[..j], k);
    AppliesLeadsIn(batches[k], history[j], p);
    forall h | 0 <= h < k ensures p.(isInspection := true) !in batches[h] {
      if p.(isInspection := true) in batches[h] {
        RivalsMeet(batches[h], batches[k], p.(isInspection := true), p);
        assert DeliveredWhole(batches[h], history[..j]);
        var i :| 0 <= i < |history[..j]| && Whole(batches[h], history[..j][i]);
        WholeHides(batches[h], history[..j][i], p);
      }
    }
  }

  lemma {:induction false} RivalsMeet(a: Batch, b: Batch, p: Presented, q: Presented)
    requires p in a && q in b && q == p.(isInspection := !p.isInspection)
    ensures Rivals(a, b)
  {
  }

  /** From an attempt in which `p` applies by itself, back to the first attempt to get it through. */
  lemma {:induction false} LedApplies(
    batches: seq<Batch>, history: seq<seq<Delivery>>, p: Presented, k: nat, w: nat) returns (j: nat)
    requires !p.isInspection && Leads(batches, p, k) && w < |history| && Applies(history[w], p)
    requires forall i {:trigger InTurn(batches, history, i)} | 0 <= i < |history| :: InTurn(batches, history, i)
    ensures AppliesAt(history, p, j)
    decreases w
  {
    if UnhiddenAmong(history[..w], p) {
      j := w;
    } else {
      var i :| 0 <= i < w && !Unhidden(history[..w][i], p);
      var earlier := ApplicableBy(batches, history, p, k, i);
      j := LedApplies(batches, history, p, k, earlier);
    }
  }

  /** When attempt `i` hides `p`, that attempt or an earlier one has got it through by itself. */
  lemma {:induction false} ApplicableBy(
    batches: seq<Batch>, history: seq<seq<Delivery>>, p: Presented, k: nat, i: nat) returns (w: nat)
    requires !p.isInspection && Leads(batches, p, k) && i < |history| && !Unhidden(history[i], p)
    requires InTurn(batches, history, i)
    ensures w <= i && Applies(history[w], p)
  {
    var h :| 0 <= h < |batches| && AttemptAt(batches[h], history[i]) && Awaited(batches, history[..i], h);
    var d :| d in history[i] && Hides(d, p);
    assert p.(isInspection := true) in batches[h];
    if h == k {
      LeadsApplies(batches[k], history[i], p);
      w := i;
    } else {
      assert k < h && p in batches[k];
      RivalsMeet(batches[k], batches[h], p, p.(isInspection := true));
      assert DeliveredWhole(batches[k], history[..i]);
      w :| 0 <= w < |history[..i]| && Whole(batches[k], history[..i][w]);
      LeadsApplies(batches[k], history[w], p);
    }
  }

  /** Which scans apply can be read off the batches. */
  lemma {:induction false} AppliesIffLeads(batches: seq<Batch>, history: seq<seq<Delivery>>, p: Presented)
    requires AtLeastOnceInOrder(batches, history) && !p.isInspection
    ensures Applies(Flatten(history), p) <==> exists k: nat :: Leads(batches, p, k)
  {
    FlattenApplies(history, p);
    if j: nat :| AppliesAt(history, p, j) {
      var k := AppliedLeads(batches, history, p, j);
    }
    if k: nat :| Leads(batches, p, k) {
      assert DeliveredWhole(batches[k], history);
      var w :| 0 <= w < |history| && Whole(batches[k], history[w]);
      LeadsApplies(batches[k], history[w], p);
      var j := LedApplies(batches, history, p, k, w);
    }
  }

  lemma {:induction false} ExactlyIsInOrder(batches: seq<Batch>, clean: seq<seq<Delivery>>)
    requires ExactlyOnce(batches, clean)
    ensures AtLeastOnceInOrder(batches, clean)
  {
    forall j | 0 <= j < |clean| ensures InTurn(batches, clean, j) {
      forall h | 0 <= h < j ensures DeliveredWhole(batches[h], clean[..j]) {
        assert Whole(batches[h], clean[..j][h]);
      }
      assert AttemptAt(batches[j], clean[j]) && Awaited(batches, clean[..j], j);
    }
    forall k | 0 <= k < |batches| ensures DeliveredWhole(batches[k], clean) {
      assert Whole(batches[k], clean[k]);
    }
  }

  /**
   At-least-once delivery in order behaves as exactly-once, contests or not.  Batches of different
   drivers never contest one another, nor do those of one driver whose scans agree on inspection mode.
   */
  lemma {:induction false} InOrderIsExactlyOnce(
    db: Db, batches: seq<Batch>, history: seq<seq<Delivery>>, clean: seq<seq<Delivery>>)
    requires AtLeastOnceInOrder(batches, history) && ExactlyOnce(batches, clean) && RefundsHaveWallets(db)
    ensures SameOutcome(db, Flatten(clean), Flatten(history))
  {
    ExactlyIsInOrder(batches, clean);
    forall p: Presented | !p.isInspection ensures Applies(Flatten(clean), p) <==> Applies(Flatten(history), p) {
      AppliesIffLeads(batches, clean, p);
      AppliesIffLeads(batches, history, p);
    }
    AppliedDecide(db, Flatten(clean), Flatten(history));
  }

  /** In particular for one batch, cut off anywhere and sent again any number of times. */
  lemma {:induction false} OneBatchIsExactlyOnce(db: Db, batch: Batch, history: seq<seq<Delivery>>, clean: seq<Delivery>)
    requires forall j | 0 <= j < |history| :: AttemptAt(batch, history[j])
    requires DeliveredWhole(batch, history) && Whole(batch, clean) && RefundsHaveWallets(db)
    ensures SameOutcome(db, clean, Flatten(history))
  {
    var batches := [batch];
    forall j | 0 <= j < |history| ensures InTurn(batches, history, j) {
      assert AttemptAt(batches[0], history[j]) && Awaited(batches, history[..j], 0);
    }
    assert Flatten([clean][..0]) == [];
    assert Flatten([clean]) == [] + clean == clean;
    assert ExactlyOnce(batches, [clean]);
    InOrderIsExactlyOnce(db, batches, history, [clean]);
  }

  // ---- Crash-free resends ----

  /** At most one offline event per scan, so the lookup of a recorded result is unambiguous. */
  ghost predicate OneEventPerScan(events: seq<ScanEvent>) {
    forall i, j | 0 <= i < j < |events| && events[i].isOffline && events[j].isOffline ::
      || events[i].ticket != events[j].ticket
      || events[i].driver != events[j].driver
      || events[i].scannedAt != events[j].scannedAt
  }

  lemma {:induction false} DeliverKeepsOneEvent(db: Db, d: Delivery)
    requires OneEventPerScan(db.events)
    ensures OneEventPerScan(Deliver(db, d).events)
  {
  }

  lemma {:induction false} LoggedRunIsIdle(db: Db, ds: seq<Delivery>)
    requires forall i | 0 <= i < |ds| :: Logged(db.events, ds[i].scan)
    ensures DeliverAll(db, ds) == db
  {
    if ds != [] {
      LoggedRunIsIdle(db, ds[..|ds| - 1]);
    }
  }

  /**
   Resending scans that were delivered before changes nothing at all, whatever happened in between:
   every operation of the system only appends to the scan log.
   */
  lemma {:induction false} ResendChangesNothing(db: Db, first: seq<Delivery>, later: Db, again: seq<Delivery>)
    requires RefundsHaveWallets(db)
    requires forall i | 0 <= i < |first| :: first[i].scan.ticket in db.tickets && !first[i].torn
    requires DeliverAll(db, first).events <= later.events
    requires Scans(again) <= Scans(first)
    ensures DeliverAll(later, again) == later
  {
    RunLogs(db, first);
    forall i | 0 <= i < |again| ensures Logged(later.events, again[i].scan) {
      assert again[i].scan in Scans(first);
      var d :| d in first && d.scan == again[i].scan;
      LoggedMonotone(DeliverAll(db, first).events, later.events, d.scan);
    }
    LoggedRunIsIdle(later, again);
  }

  /** A resend reports the result that the first delivery reported, as an idempotent skip. */
  lemma {:induction false} ResendReportsTheSame(
    db: Db, qr: Qr, driver: UserId, scan: OfflineScan, syncedAt: int, trip: Option<TripId>, first: Item,
    later: Db, resyncedAt: int, again: Item)
    requires Reports(db, qr, driver, scan, syncedAt, first) && first.action != Invalid
    requires RefundsHaveWallets(db)
    requires Deliver(db, Delivery(Present(qr, driver, scan).value, syncedAt, trip, false)).events <= later.events
    requires OneEventPerScan(later.events) && db.tickets.Keys <= later.tickets.Keys
    requires Reports(later, qr, driver, scan, resyncedAt, again)
    ensures again.action == IdempotentSkip && again.serverResult == first.serverResult
  {
    var p := Present(qr, driver, scan).value;
    var d := Delivery(p, syncedAt, trip, false);
    var after := Deliver(db, d);
    DeliverLogs(db, d);
    LoggedMonotone(after.events, later.events, p);
    if Logged(db.events, p) {
      var i :| 0 <= i < |db.events| && SameScan(db.events[i], p) && db.events[i].result == first.serverResult;
      assert SameScan(later.events[i], p) && later.events[i].result == first.serverResult;
    } else {
      var i := |db.events|;
      assert after.events[i].result == first.serverResult;
      assert SameScan(later.events[i], p) && later.events[i].result == first.serverResult;
    }
  }
}
