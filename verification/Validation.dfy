/** Online validation of a ticket by a driver, and the list of a trip's passengers. */
module Validation {
  import opened Wrappers
  import opened Store
  import Sync
  import Trips

  /** A validation request: `scannedAt` is taken on entry, `checkedAt` at the expiry check. */
  datatype Request = Request(
    driver: UserId,
    payload: string,
    signature: string,
    isInspection: bool,
    scannedAt: int,
    checkedAt: int)

  function EventOf(r: Request, t: TicketId, trip: Option<TripId>, result: ScanResult): ScanEvent {
    ScanEvent(t, r.driver, trip, result, r.isInspection, false, r.scannedAt, None)
  }

  function Log(db: Db, r: Request, t: TicketId, trip: Option<TripId>, result: ScanResult): Db {
    db.(events := db.events + [EventOf(r, t, trip, result)])
  }

  datatype Outcome = Outcome(after: Db, answer: Result<ScanResult, Error>)

  /** `trip` is the driver's trip in progress, if any. */
  function Validated(db: Db, qr: Sync.Qr, r: Request, trip: Option<TripId>): Outcome {
    var parsed := qr.parse(r.payload);
    if !qr.verify(r.payload, r.signature) then
      if parsed.None? then Outcome(db, Failure(BadSignature))
      else if parsed.value !in db.tickets then Outcome(db, Failure(UnknownReference))
      else Outcome(Log(db, r, parsed.value, None, InvalidSignature), Failure(BadSignature))
    else if parsed.None? then Outcome(db, Failure(MalformedPayload))
    else if trip.None? then Outcome(db, Failure(NoActiveTrip))
    else if parsed.value !in db.tickets then Outcome(db, Failure(TicketNotFound))
    else
      var t := parsed.value;
      var ticket := db.tickets[t];
      if r.checkedAt > ticket.expiresAt then
        Outcome(Log(db, r, t, trip, ExpiredScan), Failure(TicketExpired))
      else if r.isInspection then
        Outcome(Log(db, r, t, trip, InspectionOnly), Success(InspectionOnly))
      else if ticket.status == Active then
        var used := ticket.(status := Used, usedAt := Some(r.scannedAt));
        Outcome(Log(db.(tickets := db.tickets[t := used]), r, t, trip, Valid), Success(Valid))
      else
        Outcome(Log(db, r, t, trip, AlreadyUsed), Failure(TicketAlreadyUsed))
  }

  // ---- The service ----

  /**
   A scan without a ticket id is not logged.  One with the id of no ticket cannot be: the insert fails on
   its foreign key.
   */
  method LogScan(db: Database, r: Request, t: Option<TicketId>, trip: Option<TripId>, result: ScanResult)
    returns (logged: Result<(), Error>)
    modifies db`events
    ensures logged == if t.Some? && t.value !in db.tickets then Failure(UnknownReference) else Success(())
    ensures db.events == if t.Some? && t.value in db.tickets
                         then old(db.events) + [EventOf(r, t.value, trip, result)] else old(db.events)
  {
    if t.None? {
      return Success(());
    }
    if t.value !in db.tickets {
      return Failure(UnknownReference);
    }
    db.events := db.events
      + [ScanEvent(t.value, r.driver, trip, result, r.isInspection, false, r.scannedAt, None)];
    logged := Success(());
  }

  /** The conditional update: it applies to the row only while the row is ACTIVE. */
  method MarkUsedIfActive(db: Database, t: TicketId, at: int) returns (count: nat)
    modifies db`tickets
    ensures if t in old(db.tickets) && old(db.tickets)[t].status == Active
            then count == 1
              && db.tickets == old(db.tickets)[t := old(db.tickets)[t].(status := Used, usedAt := Some(at))]
            else count == 0 && db.tickets == old(db.tickets)
  {
    count := 0;
    if t in db.tickets && db.tickets[t].status == Active {
      db.tickets := db.tickets[t := db.tickets[t].(status := Used, usedAt := Some(at))];
      count := 1;
    }
  }

  method ValidateTicket(db: Database, qr: Sync.Qr, r: Request)
    returns (answer: Result<ScanResult, Error>, ghost trip: Option<TripId>)
    modifies db
    ensures db.trips == old(db.trips)
    ensures Outcome(db.Rows(), answer) == Validated(old(db.Rows()), qr, r, trip)
    ensures trip.Some? ==> Trips.ActiveFor(db.trips, r.driver, trip.value)
    ensures answer == Failure(NoActiveTrip) ==> forall id | id in db.trips :: !Trips.ActiveFor(db.trips, r.driver, id)
  {
    trip := None;
    var parsed := qr.parse(r.payload);
    if !qr.verify(r.payload, r.signature) {
      var forged := LogScan(db, r, parsed, None, InvalidSignature);
      return Failure(if forged.Failure? then forged.error else BadSignature), None;
    }
    if parsed.None? {
      return Failure(MalformedPayload), None;
    }
    var t := parsed.value;
    var active := Trips.GetActiveTrip(db, r.driver);
    trip := active;
    if active.None? {
      return Failure(NoActiveTrip), trip;
    }
    if t !in db.tickets {
      return Failure(TicketNotFound), trip;
    }
    var ticket := db.tickets[t];
    if r.checkedAt > ticket.expiresAt {
      var _ := LogScan(db, r, parsed, active, ExpiredScan);
      return Failure(TicketExpired), trip;
    }
    if !r.isInspection && ticket.status == Used {
      var _ := LogScan(db, r, parsed, active, AlreadyUsed);
      return Failure(TicketAlreadyUsed), trip;
    }
    var final := InspectionOnly;
    if !r.isInspection {
      var count := MarkUsedIfActive(db, t, r.scannedAt);
      if count == 0 {
        var _ := LogScan(db, r, parsed, active, AlreadyUsed);
        return Failure(TicketAlreadyUsed), trip;
      }
      final := Valid;
    }
    var _ := LogScan(db, r, parsed, active, final);
    answer := Success(final);
  }
}
