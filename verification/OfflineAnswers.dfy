/**
 What an offline scan is answered and what it leaves, told from the columns alone: the signature, the
 payload, the inspection flag, the ticket row and the scan log.
 */
module OfflineAnswers {
  import opened Wrappers
  import opened Store
  import opened Sync

  const DAY_MS := 86400000

  /** The state after processing one scan; `trip` is what the trip lookup answers. */
  function AfterScan(
    db: Db, qr: Qr, driver: UserId, scan: OfflineScan, syncedAt: int, trip: Option<TripId>): Db
  {
    DeliverAll(db, Sync.Deliveries(qr, driver, [scan], syncedAt, [trip]))
  }

  // ---- Forged scans ----

  predicate Genuine(qr: Qr, scan: OfflineScan) {
    qr.verify(scan.payload, scan.signature)
  }

  /** A scan with a bad signature is reported as such and writes nothing. */
  lemma {:induction false} ForgedIsRejected(
    db: Db, qr: Qr, driver: UserId, scan: OfflineScan, syncedAt: int, trip: Option<TripId>, item: Item)
    requires !qr.verify(scan.payload, scan.signature)
    requires Reports(db, qr, driver, scan, syncedAt, item)
    ensures AfterScan(db, qr, driver, scan, syncedAt, trip) == db
    ensures item.serverResult == InvalidSignature && item.action == Invalid
    ensures item.anomaly == if scan.localResult.Some? && scan.localResult != Some(InvalidSignature)
                            then Some(ResultMismatch) else None
  {
    OneDelivery(db, qr, driver, scan, syncedAt, trip);
  }

  /** Neither does a genuine scan whose payload cannot be read, or names no ticket. */
  lemma {:induction false} UnknownIsRejected(
    db: Db, qr: Qr, driver: UserId, scan: OfflineScan, syncedAt: int, trip: Option<TripId>, item: Item)
    requires qr.parse(scan.payload).None? || qr.parse(scan.payload).value !in db.tickets
    requires Reports(db, qr, driver, scan, syncedAt, item)
    ensures AfterScan(db, qr, driver, scan, syncedAt, trip) == db
    ensures item.serverResult == InvalidSignature && item.action == Invalid
  {
    OneDelivery(db, qr, driver, scan, syncedAt, trip);
  }

  function GenuineScans(qr: Qr, scans: seq<OfflineScan>): seq<OfflineScan> {
    if scans == [] then []
    else
      var last := scans[|scans| - 1];
      GenuineScans(qr, scans[..|scans| - 1]) + if Genuine(qr, last) then [last] else []
  }

  /** The trips that were looked up for the genuine scans. */
  function GenuineTrips(qr: Qr, scans: seq<OfflineScan>, trips: seq<Option<TripId>>): (r: seq<Option<TripId>>)
    requires |scans| == |trips|
    ensures |r| == |GenuineScans(qr, scans)|
  {
    if scans == [] then []
    else
      var n := |scans| - 1;
      GenuineTrips(qr, scans[..n], trips[..n]) + if Genuine(qr, scans[n]) then [trips[n]] else []
  }

  lemma {:induction false} DeliveriesPush(
    qr: Qr, driver: UserId, scans: seq<OfflineScan>, syncedAt: int, trips: seq<Option<TripId>>,
    scan: OfflineScan, trip: Option<TripId>)
    requires |scans| == |trips|
    ensures Sync.Deliveries(qr, driver, scans + [scan], syncedAt, trips + [trip])
         == Sync.Deliveries(qr, driver, scans, syncedAt, trips)
          + Sync.Deliveries(qr, driver, [scan], syncedAt, [trip])
  {
    assert (scans + [scan])[..|scans|] == scans && (trips + [trip])[..|trips|] == trips;
    assert [scan][..0] == [] && [trip][..0] == [];
  }

  /** A batch amounts to the deliveries of its genuine scans. */
  lemma {:induction false} ForgedDeliverNothing(
    qr: Qr, driver: UserId, scans: seq<OfflineScan>, syncedAt: int, trips: seq<Option<TripId>>)
    requires |scans| == |trips|
    ensures Sync.Deliveries(qr, driver, scans, syncedAt, trips)
         == Sync.Deliveries(qr, driver, GenuineScans(qr, scans), syncedAt, GenuineTrips(qr, scans, trips))
  {
    if scans != [] {
      var n := |scans| - 1;
      var s, t := GenuineScans(qr, scans[..n]), GenuineTrips(qr, scans[..n], trips[..n]);
      assert scans == scans[..n] + [scans[n]] && trips == trips[..n] + [trips[n]];
      ForgedDeliverNothing(qr, driver, scans[..n], syncedAt, trips[..n]);
      DeliveriesPush(qr, driver, scans[..n], syncedAt, trips[..n], scans[n], trips[n]);
      if Genuine(qr, scans[n]) {
        DeliveriesPush(qr, driver, s, syncedAt, t, scans[n], trips[n]);
      } else {
        assert Sync.Deliveries(qr, driver, [scans[n]], syncedAt, [trips[n]]) == [];
        assert s + [] == s && t + [] == t;
      }
    }
  }

  lemma {:induction false} GenuinePrefix(qr: Qr, scans: seq<OfflineScan>, trips: seq<Option<TripId>>, i: nat)
    requires |scans| == |trips| && i <= |scans|
    ensures var j := |GenuineScans(qr, scans[..i])|;
            && j <= |GenuineScans(qr, scans)|
            && GenuineScans(qr, scans)[..j] == GenuineScans(qr, scans[..i])
            && GenuineTrips(qr, scans, trips)[..j] == GenuineTrips(qr, scans[..i], trips[..i])
            && (i < |scans| && Genuine(qr, scans[i]) ==>
                  j < |GenuineScans(qr, scans)| && GenuineScans(qr, scans)[j] == scans[i])
  {
    var n := |scans| - 1;
    if i == |scans| {
      assert scans[..i] == scans && trips[..i] == trips;
    } else {
      assert scans[..n][..i] == scans[..i] && trips[..n][..i] == trips[..i];
      GenuinePrefix(qr, scans[..n], trips[..n], i);
    }
  }

  /**
   Forged scans leave no trace in a batch: the state in which each genuine scan is processed, and so
   its report, is the one in the batch without them; and so is the final state.
   */
  lemma {:induction false} ForgedLeaveNoTrace(
    db: Db, qr: Qr, driver: UserId, scans: seq<OfflineScan>, syncedAt: int, trips: seq<Option<TripId>>, i: nat)
    requires |scans| == |trips| && i <= |scans|
    ensures var genuine, lookups := GenuineScans(qr, scans), GenuineTrips(qr, scans, trips);
            var j := |GenuineScans(qr, scans[..i])|;
            && j <= |genuine|
            && StateBefore(db, qr, driver, scans, syncedAt, trips, i)
            == StateBefore(db, qr, driver, genuine, syncedAt, lookups, j)
            && (i < |scans| && qr.verify(scans[i].payload, scans[i].signature) ==>
                  j < |genuine| && genuine[j] == scans[i])
            && (i == |scans| ==> j == |genuine|)
  {
    GenuinePrefix(qr, scans, trips, i);
    ForgedDeliverNothing(qr, driver, scans[..i], syncedAt, trips[..i]);
    assert i == |scans| ==> scans[..i] == scans;
  }

  // ---- Genuine scans of known tickets ----

  lemma {:induction false} OneDelivery(
    db: Db, qr: Qr, driver: UserId, scan: OfflineScan, syncedAt: int, trip: Option<TripId>)
    ensures AfterScan(db, qr, driver, scan, syncedAt, trip)
         == match Present(qr, driver, scan)
            case None => db
            case Some(p) => Deliver(db, Delivery(p, syncedAt, trip, false))
  {
    var ds := Sync.Deliveries(qr, driver, [scan], syncedAt, [trip]);
    assert Sync.Deliveries(qr, driver, [scan][..0], syncedAt, [trip][..0]) == [];
    assert [scan][|[scan]| - 1] == scan;
    match Present(qr, driver, scan)
    case None => assert ds == [];
    case Some(p) =>
      var d := Delivery(p, syncedAt, trip, false);
      assert ds == [d] && [d][..0] == [];
      assert DeliverAll(db, []) == db;
  }

  /** The scan is genuine and names a stored ticket. */
  predicate Accepted(db: Db, qr: Qr, scan: OfflineScan, t: TicketId) {
    qr.verify(scan.payload, scan.signature) && qr.parse(scan.payload) == Some(t) && t in db.tickets
  }

  /** An event of this ticket and driver at this time was synchronised before. */
  predicate Synchronised(db: Db, t: TicketId, driver: UserId, at: int) {
    exists i | 0 <= i < |db.events| ::
      && db.events[i].ticket == t && db.events[i].driver == driver
      && db.events[i].scannedAt == at && db.events[i].isOffline
  }

  /** The row records a use at or before `at`. */
  predicate UsedBy(row: Ticket, at: int) {
    row.status == Used && row.usedAt.Some? && row.usedAt.value <= at
  }

  predicate UsedLater(row: Ticket, at: int) {
    row.status == Used && row.usedAt.Some? && row.usedAt.value > at
  }

  /** A scan that was synchronised before changes nothing and is reported as skipped, with its old result. */
  lemma {:induction false} SynchronisedIsSkipped(
    db: Db, qr: Qr, driver: UserId, scan: OfflineScan, syncedAt: int, trip: Option<TripId>, t: TicketId, item: Item)
    requires Accepted(db, qr, scan, t) && Synchronised(db, t, driver, scan.scannedAt)
    requires Reports(db, qr, driver, scan, syncedAt, item)
    ensures AfterScan(db, qr, driver, scan, syncedAt, trip) == db
    ensures item.action == IdempotentSkip && item.anomaly == None
    ensures exists i | 0 <= i < |db.events| ::
      && db.events[i].ticket == t && db.events[i].driver == driver
      && db.events[i].scannedAt == scan.scannedAt && db.events[i].isOffline
      && db.events[i].result == item.serverResult
  {
    OneDelivery(db, qr, driver, scan, syncedAt, trip);
    LoggedIsSynchronised(db, qr, driver, scan, t);
    var p := Present(qr, driver, scan).value;
    var i :| 0 <= i < |db.events| && SameScan(db.events[i], p) && db.events[i].result == item.serverResult;
  }

  lemma {:induction false} LoggedIsSynchronised(db: Db, qr: Qr, driver: UserId, scan: OfflineScan, t: TicketId)
    requires Accepted(db, qr, scan, t)
    ensures Present(qr, driver, scan).Some?
    ensures Logged(db.events, Present(qr, driver, scan).value) <==> Synchronised(db, t, driver, scan.scannedAt)
  {
    var p := Present(qr, driver, scan).value;
    assert forall i | 0 <= i < |db.events| ::
      SameScan(db.events[i], p) <==>
        && db.events[i].ticket == t && db.events[i].driver == driver
        && db.events[i].scannedAt == scan.scannedAt && db.events[i].isOffline;
  }

  /** The report on a fresh scan, one line for each result and action. */
  lemma {:induction false} FreshIsAnswered(
    db: Db, qr: Qr, driver: UserId, scan: OfflineScan, syncedAt: int, t: TicketId, item: Item)
    requires Accepted(db, qr, scan, t) && !Synchronised(db, t, driver, scan.scannedAt)
    requires Reports(db, qr, driver, scan, syncedAt, item)
    ensures var row, at, inspects := db.tickets[t], scan.scannedAt, scan.inspectionMode == Some(true);
            && (item.serverResult == ExpiredScan <==> at > row.expiresAt)
            && (item.serverResult == AlreadyUsed <==> at <= row.expiresAt && UsedBy(row, at))
            && (item.serverResult == InspectionOnly <==> at <= row.expiresAt && !UsedBy(row, at) && inspects)
            && (item.serverResult == Valid <==> at <= row.expiresAt && !UsedBy(row, at) && !inspects)
            && (item.action == ScannedExpired <==> at > row.expiresAt)
            && (item.action == ServerWins <==> at <= row.expiresAt && UsedBy(row, at))
            && (item.action == OfflineWins <==> at <= row.expiresAt && UsedLater(row, at))
            && (item.action == InspectionLogged <==>
                  at <= row.expiresAt && !UsedBy(row, at) && !UsedLater(row, at) && inspects)
            && (item.action == MarkedUsed <==>
                  at <= row.expiresAt && !UsedBy(row, at) && !UsedLater(row, at) && !inspects)
  {
    LoggedIsSynchronised(db, qr, driver, scan, t);
  }

  /** Some other driver has scanned the ticket. */
  predicate ScannedElsewhere(db: Db, t: TicketId, driver: UserId) {
    exists i | 0 <= i < |db.events| :: db.events[i].ticket == t && db.events[i].driver != driver
  }

  /** The anomaly of a fresh scan: a second device, then a late sync, then a different local result. */
  lemma {:induction false} FreshAnomaly(
    db: Db, qr: Qr, driver: UserId, scan: OfflineScan, syncedAt: int, t: TicketId, item: Item)
    requires Accepted(db, qr, scan, t) && !Synchronised(db, t, driver, scan.scannedAt)
    requires Reports(db, qr, driver, scan, syncedAt, item)
    ensures var row, at := db.tickets[t], scan.scannedAt;
            var used := at <= row.expiresAt && (UsedBy(row, at) || UsedLater(row, at));
            var second := used && ScannedElsewhere(db, t, driver);
            var late := !(used && UsedLater(row, at)) && syncedAt - at > DAY_MS;
            && (item.anomaly == Some(CrossDeviceDuplicate) <==> second)
            && (item.anomaly == Some(TimeDiscrepancy) <==> !second && late)
            && (item.anomaly == Some(ResultMismatch) <==>
                  !second && !late && scan.localResult.Some? && scan.localResult != Some(item.serverResult))
  {
    LoggedIsSynchronised(db, qr, driver, scan, t);
    assert ForeignScan(db.events, t, driver) <==> ScannedElsewhere(db, t, driver);
  }

  /** A fresh scan that goes through adds one event, with exactly these columns. */
  lemma {:induction false} FreshIsLogged(
    db: Db, qr: Qr, driver: UserId, scan: OfflineScan, syncedAt: int, trip: Option<TripId>, t: TicketId, item: Item)
    requires Accepted(db, qr, scan, t) && !Synchronised(db, t, driver, scan.scannedAt)
    requires Reports(db, qr, driver, scan, syncedAt, item) && db.tickets[t].passenger in db.balances
    ensures AfterScan(db, qr, driver, scan, syncedAt, trip).events
         == db.events + [ScanEvent(t, driver, trip, item.serverResult, scan.inspectionMode == Some(true), true,
                                   scan.scannedAt, Some(syncedAt))]
  {
    OneDelivery(db, qr, driver, scan, syncedAt, trip);
    LoggedIsSynchronised(db, qr, driver, scan, t);
  }

  /** A scan in inspection mode never changes a ticket, a balance or the ledger. */
  lemma {:induction false} InspectionOnlyLogs(
    db: Db, qr: Qr, driver: UserId, scan: OfflineScan, syncedAt: int, trip: Option<TripId>)
    requires scan.inspectionMode == Some(true)
    ensures var after := AfterScan(db, qr, driver, scan, syncedAt, trip);
            after == db.(events := after.events)
  {
    OneDelivery(db, qr, driver, scan, syncedAt, trip);
    var p := Present(qr, driver, scan);
    if p.Some? && p.value.ticket in db.tickets {
      var row := db.tickets[p.value.ticket];
      assert db.tickets[p.value.ticket := row] == db.tickets;
      assert Judge(row, scan.scannedAt, true).write == NoWrite;
    }
  }

  /**
   Any other genuine, fresh scan in time leaves the ticket USED at its own time or an earlier one; if
   the ticket was refunded, the refund is gone and the fare is taken from the wallet.  No other ticket
   and no other wallet changes.
   */
  lemma {:induction false} BoardingUses(
    db: Db, qr: Qr, driver: UserId, scan: OfflineScan, syncedAt: int, trip: Option<TripId>, t: TicketId)
    requires Accepted(db, qr, scan, t) && !Synchronised(db, t, driver, scan.scannedAt)
    requires scan.inspectionMode != Some(true) && scan.scannedAt <= db.tickets[t].expiresAt
    requires db.tickets[t].passenger in db.balances
    ensures var row, after := db.tickets[t], AfterScan(db, qr, driver, scan, syncedAt, trip);
            && after.tickets == db.tickets[t := row.(
                 status := Used,
                 usedAt := if UsedBy(row, scan.scannedAt) then row.usedAt else Some(scan.scannedAt),
                 refundedAt := if row.status == Refunded then None else row.refundedAt)]
            && after.balances == db.balances[row.passenger :=
                 db.balances[row.passenger] - if row.status == Refunded then row.fare else 0]
  {
    OneDelivery(db, qr, driver, scan, syncedAt, trip);
    LoggedIsSynchronised(db, qr, driver, scan, t);
  }

  /** A scan taken after the ticket expired changes no ticket and no balance. */
  lemma {:induction false} LateScanOnlyLogs(
    db: Db, qr: Qr, driver: UserId, scan: OfflineScan, syncedAt: int, trip: Option<TripId>, t: TicketId)
    requires Accepted(db, qr, scan, t) && scan.scannedAt > db.tickets[t].expiresAt
    ensures var after := AfterScan(db, qr, driver, scan, syncedAt, trip);
            after == db.(events := after.events)
  {
    OneDelivery(db, qr, driver, scan, syncedAt, trip);
    assert db.tickets[t := db.tickets[t]] == db.tickets;
  }
}
