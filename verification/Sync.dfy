/**
 Offline reconciliation.  A driver's device sends batches of scans that it took without a
 connection; each is checked, compared with the ticket row and the scan log, applied and logged.

 `Deliver` is the effect of one scan on the tables.  A torn delivery is one that was cut off by a
 crash after the ticket write (with its wallet transaction) and before the scan event was inserted.
 */
module Sync {
  import opened Wrappers
  import opened Store
  import Wallet
  import Trips

  const TWENTY_FOUR_HOURS_MS := 24 * 60 * 60 * 1000

  datatype OfflineScan = OfflineScan(
    payload: string,
    signature: string,
    scannedAt: int,
    inspectionMode: Option<bool>,
    localResult: Option<ScanResult>)

  /** The QR service: its signature check, and the ticket id that a payload decodes to, if any. */
  datatype Qr = Qr(verify: (string, string) -> bool, parse: string -> Option<TicketId>)

  datatype ScanAction =
    | MarkedUsed | ServerWins | OfflineWins | ScannedExpired | Invalid | InspectionLogged | IdempotentSkip

  datatype Anomaly = CrossDeviceDuplicate | TimeDiscrepancy | ResultMismatch

  datatype Item = Item(
    payload: string,
    serverResult: ScanResult,
    localResult: Option<ScanResult>,
    action: ScanAction,
    ticket: Option<TicketId>,
    anomaly: Option<Anomaly>)

  /** A scan whose signature and payload were accepted. */
  datatype Presented = Presented(ticket: TicketId, driver: UserId, scannedAt: int, isInspection: bool)

  function IsInspection(scan: OfflineScan): bool {
    scan.inspectionMode.Some? && scan.inspectionMode.value
  }

  function Present(qr: Qr, driver: UserId, scan: OfflineScan): Option<Presented> {
    if !qr.verify(scan.payload, scan.signature) then None
    else
      match qr.parse(scan.payload)
      case None => None
      case Some(t) => Some(Presented(t, driver, scan.scannedAt, IsInspection(scan)))
  }

  predicate SameScan(e: ScanEvent, p: Presented) {
    e.ticket == p.ticket && e.driver == p.driver && e.scannedAt == p.scannedAt && e.isOffline
  }

  /** The scan log already holds this scan: it was synchronised before. */
  predicate Logged(events: seq<ScanEvent>, p: Presented) {
    exists i | 0 <= i < |events| :: SameScan(events[i], p)
  }

  // ---- The decision about one scan ----

  datatype Write = NoWrite | MarkUsed | EarlierUse | ReverseRefund

  datatype Verdict = Verdict(write: Write, result: ScanResult, action: ScanAction)

  function Judge(ticket: Ticket, at: int, isInspection: bool): Verdict {
    if at > ticket.expiresAt then Verdict(NoWrite, ExpiredScan, ScannedExpired)
    else if ticket.status == Used && ticket.usedAt.Some? then
      if ticket.usedAt.value <= at then Verdict(NoWrite, AlreadyUsed, ServerWins)
      else if isInspection then Verdict(NoWrite, InspectionOnly, OfflineWins)
      else Verdict(EarlierUse, Valid, OfflineWins)
    else if isInspection then Verdict(NoWrite, InspectionOnly, InspectionLogged)
    else if ticket.status == Refunded then Verdict(ReverseRefund, Valid, MarkedUsed)
    else Verdict(MarkUsed, Valid, MarkedUsed)
  }

  function Reversal(t: TicketId, ticket: Ticket): Entry {
    Entry(ticket.passenger, Adjustment, Completed, ticket.fare, None, Some(t), None, None)
  }

  function RowAfter(ticket: Ticket, at: int, write: Write): Ticket {
    match write
    case NoWrite => ticket
    case MarkUsed => ticket.(status := Used, usedAt := Some(at))
    case EarlierUse => ticket.(usedAt := Some(at))
    case ReverseRefund => ticket.(status := Used, usedAt := Some(at), refundedAt := None)
  }

  /** The ticket write, together with its wallet transaction when a refund is reversed. */
  function Written(db: Db, t: TicketId, at: int, write: Write): Result<Db, Error>
    requires t in db.tickets
  {
    var ticket := db.tickets[t];
    var rows := db.(tickets := db.tickets[t := RowAfter(ticket, at, write)]);
    if write != ReverseRefund then Success(rows)
    else if ticket.passenger !in db.balances then Failure(WalletNotFound)
    else Success(Wallet.Post(rows, Reversal(t, ticket)))
  }

  function EventOf(p: Presented, result: ScanResult, trip: Option<TripId>, syncedAt: int): ScanEvent {
    ScanEvent(p.ticket, p.driver, trip, result, p.isInspection, true, p.scannedAt, Some(syncedAt))
  }

  // ---- Deliveries ----

  /** One attempt at a scan.  `trip` is what the trip lookup answered. */
  datatype Delivery = Delivery(scan: Presented, syncedAt: int, trip: Option<TripId>, torn: bool)

  function Delivered(db: Db, d: Delivery): Result<Db, Error> {
    var p := d.scan;
    if p.ticket !in db.tickets || Logged(db.events, p) then Success(db)
    else
      var v := Judge(db.tickets[p.ticket], p.scannedAt, p.isInspection);
      match Written(db, p.ticket, p.scannedAt, v.write)
      case Failure(e) => Failure(e)
      case Success(w) =>
        Success(if d.torn then w else w.(events := w.events + [EventOf(p, v.result, d.trip, d.syncedAt)]))
  }

  function Deliver(db: Db, d: Delivery): Db {
    match Delivered(db, d)
    case Success(after) => after
    case Failure(_) => db
  }

  function DeliverAll(db: Db, ds: seq<Delivery>): Db {
    if ds == [] then db
    else Deliver(DeliverAll(db, ds[..|ds| - 1]), ds[|ds| - 1])
  }

  lemma {:induction false} DeliverPush(db: Db, ds: seq<Delivery>, d: Delivery)
    ensures DeliverAll(db, ds + [d]) == Deliver(DeliverAll(db, ds), d)
  {
    assert (ds + [d])[..|ds|] == ds;
  }

  /** The deliveries that the accepted scans of a batch amount to. */
  function Deliveries(
    qr: Qr, driver: UserId, scans: seq<OfflineScan>, syncedAt: int, trips: seq<Option<TripId>>): seq<Delivery>
    requires |scans| == |trips|
  {
    if scans == [] then []
    else
      var n := |scans| - 1;
      Deliveries(qr, driver, scans[..n], syncedAt, trips[..n]) +
      match Present(qr, driver, scans[n])
      case None => []
      case Some(p) => [Delivery(p, syncedAt, trips[n], false)]
  }

  // ---- What is reported back ----

  function Mismatch(localResult: Option<ScanResult>, serverResult: ScanResult): Option<Anomaly> {
    if localResult.Some? && localResult.value != serverResult then Some(ResultMismatch) else None
  }

  function OrElse(a: Option<Anomaly>, b: Option<Anomaly>): Option<Anomaly> {
    if a.Some? then a else b
  }

  predicate ForeignScan(events: seq<ScanEvent>, t: TicketId, driver: UserId) {
    exists i | 0 <= i < |events| :: events[i].ticket == t && events[i].driver != driver
  }

  function CrossDevice(events: seq<ScanEvent>, t: TicketId, driver: UserId): Option<Anomaly> {
    if ForeignScan(events, t, driver) then Some(CrossDeviceDuplicate) else None
  }

  function Late(at: int, syncedAt: int): Option<Anomaly> {
    if syncedAt - at > TWENTY_FOUR_HOURS_MS then Some(TimeDiscrepancy) else None
  }

  function AnomalyOf(db: Db, p: Presented, v: Verdict, local: Option<ScanResult>, syncedAt: int): Option<Anomaly> {
    var mismatch := Mismatch(local, v.result);
    var cross := CrossDevice(db.events, p.ticket, p.driver);
    match v.action
    case ServerWins => OrElse(cross, OrElse(Late(p.scannedAt, syncedAt), mismatch))
    case OfflineWins => OrElse(cross, mismatch)
    case _ => OrElse(Late(p.scannedAt, syncedAt), mismatch)
  }

  /** `item` is the report on `scan` when it is processed in state `db`. */
  ghost predicate Reports(db: Db, qr: Qr, driver: UserId, scan: OfflineScan, syncedAt: int, item: Item) {
    && item.payload == scan.payload
    && item.localResult == scan.localResult
    && match Present(qr, driver, scan) {
         case None =>
           && item.serverResult == InvalidSignature && item.action == Invalid
           && (qr.verify(scan.payload, scan.signature) ==> item.ticket == None && item.anomaly == None)
           && (!qr.verify(scan.payload, scan.signature) ==>
                 && item.ticket == qr.parse(scan.payload)
                 && item.anomaly == Mismatch(scan.localResult, InvalidSignature))
         case Some(p) =>
           && item.ticket == Some(p.ticket)
           && if p.ticket !in db.tickets then
                item.serverResult == InvalidSignature && item.action == Invalid && item.anomaly == None
              else if Logged(db.events, p) then
                && item.action == IdempotentSkip && item.anomaly == None
                && Recorded(db.events, p, item.serverResult)
              else
                var v := Judge(db.tickets[p.ticket], p.scannedAt, p.isInspection);
                && item.serverResult == v.result && item.action == v.action
                && item.anomaly == AnomalyOf(db, p, v, scan.localResult, syncedAt)
       }
  }

  predicate Recorded(events: seq<ScanEvent>, p: Presented, result: ScanResult) {
    exists i | 0 <= i < |events| :: SameScan(events[i], p) && events[i].result == result
  }

  // ---- The service ----

  method FindLogged(db: Database, p: Presented) returns (found: Option<ScanResult>)
    ensures found.Some? <==> Logged(db.events, p)
    ensures found.Some? ==> Recorded(db.events, p, found.value)
  {
    found := None;
    for i := 0 to |db.events|
      invariant found.Some? <==> exists j | 0 <= j < i :: SameScan(db.events[j], p)
      invariant found.Some? ==> Recorded(db.events, p, found.value)
    {
      if SameScan(db.events[i], p) {
        found := Some(db.events[i].result);
      }
    }
  }

  method CheckCrossDevice(db: Database, t: TicketId, driver: UserId) returns (r: Option<Anomaly>)
    ensures r == CrossDevice(db.events, t, driver)
  {
    r := None;
    for i := 0 to |db.events|
      invariant r == if exists j | 0 <= j < i :: db.events[j].ticket == t && db.events[j].driver != driver
                     then Some(CrossDeviceDuplicate) else None
    {
      if db.events[i].ticket == t && db.events[i].driver != driver {
        r := Some(CrossDeviceDuplicate);
      }
    }
  }

  /** The transaction that takes back a refund; without a wallet row it throws and is rolled back. */
  method ReverseRefundOf(db: Database, t: TicketId, at: int) returns (r: Result<(), Error>)
    requires t in db.tickets
    modifies db
    ensures var want := Written(old(db.Rows()), t, at, ReverseRefund);
            && (want.Success? ==> r.Success? && db.Rows() == want.value)
            && (want.Failure? ==> r == Failure(want.error) && db.Rows() == old(db.Rows()))
    ensures db.trips == old(db.trips)
  {
    var tickets := db.tickets;
    var ticket := db.tickets[t];
    db.tickets := db.tickets[t := ticket.(status := Used, usedAt := Some(at), refundedAt := None)];
    if ticket.passenger !in db.balances {
      db.tickets := tickets;
      return Failure(WalletNotFound);
    }
    db.balances := db.balances[ticket.passenger := db.balances[ticket.passenger] - ticket.fare];
    db.InsertCompleted(Reversal(t, ticket));
    r := Success(());
  }

  method InsertScan(db: Database, p: Presented, result: ScanResult, trip: Option<TripId>, syncedAt: int)
    modifies db`events
    ensures db.events == old(db.events) + [EventOf(p, result, trip, syncedAt)]
  {
    db.events := db.events
      + [ScanEvent(p.ticket, p.driver, trip, result, p.isInspection, true, p.scannedAt, Some(syncedAt))];
  }

  /** The second half of processing: a known ticket, and a scan that the log does not hold yet. */
  method RecordScan(db: Database, p: Presented, scan: OfflineScan, syncedAt: int)
    returns (r: Result<Item, Error>, ghost trip: Option<TripId>)
    requires p.ticket in db.tickets && !Logged(db.events, p)
    requires p.scannedAt == scan.scannedAt && p.isInspection == IsInspection(scan)
    modifies db
    ensures db.trips == old(db.trips)
    ensures Trips.ValidLookup(db.trips, p.driver, p.scannedAt, trip)
    ensures r.Success? ==>
      var v := Judge(old(db.tickets)[p.ticket], p.scannedAt, p.isInspection);
      r.value == Item(scan.payload, v.result, scan.localResult, v.action, Some(p.ticket),
                      AnomalyOf(old(db.Rows()), p, v, scan.localResult, syncedAt))
    ensures var want := Delivered(old(db.Rows()), Delivery(p, syncedAt, trip, false));
            && (want.Success? ==> r.Success? && db.Rows() == want.value)
            && (want.Failure? ==> r == Failure(want.error) && db.Rows() == old(db.Rows()))
  {
    var t, at, local := p.ticket, p.scannedAt, scan.localResult;
    var ticket := db.tickets[t];
    assert db.tickets[t := ticket] == db.tickets;
    var late := if syncedAt - at > TWENTY_FOUR_HOURS_MS then Some(TimeDiscrepancy) else None;
    var tripId := Trips.ResolveTripId(db, p.driver, at);
    trip := tripId;

    if at > ticket.expiresAt {
      InsertScan(db, p, ExpiredScan, tripId, syncedAt);
      return Success(Item(scan.payload, ExpiredScan, local, ScannedExpired, Some(t),
                          OrElse(late, Mismatch(local, ExpiredScan)))), trip;
    }

    if ticket.status == Used && ticket.usedAt.Some? {
      var cross := CheckCrossDevice(db, t, p.driver);
      if ticket.usedAt.value <= at {
        InsertScan(db, p, AlreadyUsed, tripId, syncedAt);
        return Success(Item(scan.payload, AlreadyUsed, local, ServerWins, Some(t),
                            OrElse(cross, OrElse(late, Mismatch(local, AlreadyUsed))))), trip;
      }
      if !p.isInspection {
        db.tickets := db.tickets[t := ticket.(usedAt := Some(at))];
      }
      var result := if p.isInspection then InspectionOnly else Valid;
      InsertScan(db, p, result, tripId, syncedAt);
      return Success(Item(scan.payload, result, local, OfflineWins, Some(t),
                          OrElse(cross, Mismatch(local, result)))), trip;
    }

    if p.isInspection {
      InsertScan(db, p, InspectionOnly, tripId, syncedAt);
      return Success(Item(scan.payload, InspectionOnly, local, InspectionLogged, Some(t),
                          OrElse(late, Mismatch(local, InspectionOnly)))), trip;
    }

    if ticket.status == Refunded {
      var reversed := ReverseRefundOf(db, t, at);
      if reversed.Failure? {
        return Failure(reversed.error), trip;
      }
    } else {
      db.tickets := db.tickets[t := ticket.(status := Used, usedAt := Some(at))];
    }
    InsertScan(db, p, Valid, tripId, syncedAt);
    r := Success(Item(scan.payload, Valid, local, MarkedUsed, Some(t), OrElse(late, Mismatch(local, Valid))));
  }

  /** `trip` is the answer of the trip lookup, when there was one. */
  method ProcessScan(db: Database, qr: Qr, driver: UserId, scan: OfflineScan, syncedAt: int)
    returns (r: Result<Item, Error>, ghost trip: Option<TripId>)
    modifies db
    ensures db.trips == old(db.trips)
    ensures r.Success? ==> Reports(old(db.Rows()), qr, driver, scan, syncedAt, r.value)
    ensures match Present(qr, driver, scan)
            case None => r.Success? && db.Rows() == old(db.Rows())
            case Some(p) =>
              var want := Delivered(old(db.Rows()), Delivery(p, syncedAt, trip, false));
              && (want.Success? ==> r.Success? && db.Rows() == want.value)
              && (want.Failure? ==> r == Failure(want.error) && db.Rows() == old(db.Rows()))
    ensures db.events != old(db.events) ==> Trips.ValidLookup(db.trips, driver, scan.scannedAt, trip)
  {
    trip := None;
    var local := scan.localResult;
    if !qr.verify(scan.payload, scan.signature) {
      return Success(Item(scan.payload, InvalidSignature, local, Invalid,
                          qr.parse(scan.payload), Mismatch(local, InvalidSignature))), None;
    }
    var parsed := qr.parse(scan.payload);
    if parsed.None? {
      return Success(Item(scan.payload, InvalidSignature, local, Invalid, None, None)), None;
    }
    var t := parsed.value;
    if t !in db.tickets {
      return Success(Item(scan.payload, InvalidSignature, local, Invalid, parsed, None)), None;
    }
    var p := Presented(t, driver, scan.scannedAt, IsInspection(scan));
    var existing := FindLogged(db, p);
    if existing.Some? {
      return Success(Item(scan.payload, existing.value, local, IdempotentSkip, parsed, None)), None;
    }
    r, trip := RecordScan(db, p, scan, syncedAt);
  }

  /** The state in which scan `i` of a batch is processed. */
  function StateBefore(
    db: Db, qr: Qr, driver: UserId, scans: seq<OfflineScan>, syncedAt: int, trips: seq<Option<TripId>>, i: nat): Db
    requires i <= |scans| && i <= |trips|
  {
    DeliverAll(db, Deliveries(qr, driver, scans[..i], syncedAt, trips[..i]))
  }

  lemma {:induction false} StateBeforeNext(
    db: Db, qr: Qr, driver: UserId, scans: seq<OfflineScan>, syncedAt: int, trips: seq<Option<TripId>>, i: nat)
    requires i < |scans| && i < |trips|
    ensures var p := Present(qr, driver, scans[i]);
            var before := StateBefore(db, qr, driver, scans, syncedAt, trips, i);
            StateBefore(db, qr, driver, scans, syncedAt, trips, i + 1)
              == if p.None? then before else Deliver(before, Delivery(p.value, syncedAt, trips[i], false))
  {
    assert scans[..i + 1][..i] == scans[..i] && trips[..i + 1][..i] == trips[..i];
    var done := Deliveries(qr, driver, scans[..i], syncedAt, trips[..i]);
    var p := Present(qr, driver, scans[i]);
    if p.None? {
      assert done + [] == done;
    } else {
      DeliverPush(db, done, Delivery(p.value, syncedAt, trips[i], false));
    }
  }

  lemma {:induction false} StateBeforeSame(
    db: Db, qr: Qr, driver: UserId, scans: seq<OfflineScan>, syncedAt: int,
    trips: seq<Option<TripId>>, trip: Option<TripId>, i: nat)
    requires i <= |scans| && i <= |trips|
    ensures StateBefore(db, qr, driver, scans, syncedAt, trips + [trip], i)
         == StateBefore(db, qr, driver, scans, syncedAt, trips, i)
  {
    assert (trips + [trip])[..i] == trips[..i];
  }

  /** Processing the scan fails in state `db`, whatever trip it belongs to. */
  predicate Throws(db: Db, p: Option<Presented>, error: Error) {
    p.Some? && Delivered(db, Delivery(p.value, 0, None, false)) == Failure(error)
  }

  /**
   One batch.  An exception stops it: the scans before the failing one stay processed, the failing
   one and those after it leave no trace.
   */
  method Reconcile(db: Database, qr: Qr, driver: UserId, scans: seq<OfflineScan>, syncedAt: int)
    returns (results: seq<Item>, error: Option<Error>, ghost trips: seq<Option<TripId>>)
    modifies db
    ensures db.trips == old(db.trips)
    ensures |results| == |trips| <= |scans|
    ensures error.None? ==> |results| == |scans|
    ensures error.Some? ==>
      && |results| < |scans|
      && Throws(StateBefore(old(db.Rows()), qr, driver, scans, syncedAt, trips, |trips|),
                Present(qr, driver, scans[|results|]), error.value)
    ensures db.Rows() == StateBefore(old(db.Rows()), qr, driver, scans, syncedAt, trips, |trips|)
    ensures forall i | 0 <= i < |results| ::
      Reports(StateBefore(old(db.Rows()), qr, driver, scans, syncedAt, trips, i), qr, driver, scans[i], syncedAt, results[i])
  {
    results, trips, error := [], [], None;
    ghost var before := db.Rows();
    for i := 0 to |scans|
      invariant |results| == |trips| == i && db.trips == old(db.trips)
      invariant db.Rows() == StateBefore(before, qr, driver, scans, syncedAt, trips, i)
      invariant forall j | 0 <= j < i ::
        Reports(StateBefore(before, qr, driver, scans, syncedAt, trips, j), qr, driver, scans[j], syncedAt, results[j])
    {
      var item, trip := ProcessScan(db, qr, driver, scans[i], syncedAt);
      if item.Failure? {
        error := Some(item.error);
        return;
      }
      forall j | 0 <= j <= i
        ensures StateBefore(before, qr, driver, scans, syncedAt, trips + [trip], j)
             == StateBefore(before, qr, driver, scans, syncedAt, trips, j)
      {
        StateBeforeSame(before, qr, driver, scans, syncedAt, trips, trip, j);
      }
      trips := trips + [trip];
      StateBeforeNext(before, qr, driver, scans, syncedAt, trips, i);
      results := results + [item.value];
    }
  }
}
