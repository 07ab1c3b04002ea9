/**
 What an online scan is answered, told from the columns alone; and that the single reads and writes
 into which `SingleWinner` cuts a scan amount to it when nothing comes in between.
 */
module OnlineAnswers {
  import opened Wrappers
  import opened Store
  import Sync
  import opened Validation

  /** The signature verifies and the payload names a stored ticket. */
  predicate Presents(db: Db, qr: Sync.Qr, r: Request, t: TicketId) {
    qr.verify(r.payload, r.signature) && qr.parse(r.payload) == Some(t) && t in db.tickets
  }

  function Logged(db: Db, r: Request, t: TicketId, trip: Option<TripId>, result: ScanResult): seq<ScanEvent> {
    db.events + [ScanEvent(t, r.driver, trip, result, r.isInspection, false, r.scannedAt, None)]
  }

  /**
   A boarding request succeeds iff the signature verifies, the payload names a stored ticket, the driver
   has a trip, the ticket is ACTIVE and has not expired; the answer is then VALID.
   */
  lemma {:induction false} BoardingSucceedsIff(db: Db, qr: Sync.Qr, r: Request, trip: Option<TripId>)
    requires !r.isInspection
    ensures var answer := Validated(db, qr, r, trip).answer;
            && (answer.Success? <==>
                  && qr.verify(r.payload, r.signature) && trip.Some?
                  && qr.parse(r.payload).Some? && qr.parse(r.payload).value in db.tickets
                  && db.tickets[qr.parse(r.payload).value].status == Active
                  && r.checkedAt <= db.tickets[qr.parse(r.payload).value].expiresAt)
            && (answer.Success? ==> answer == Success(Valid))
  {
  }

  /** An inspection succeeds whatever the ticket's status, and is answered INSPECTION_ONLY. */
  lemma {:induction false} InspectionSucceedsIff(db: Db, qr: Sync.Qr, r: Request, trip: Option<TripId>)
    requires r.isInspection
    ensures var answer := Validated(db, qr, r, trip).answer;
            && (answer.Success? <==>
                  && qr.verify(r.payload, r.signature) && trip.Some?
                  && qr.parse(r.payload).Some? && qr.parse(r.payload).value in db.tickets
                  && r.checkedAt <= db.tickets[qr.parse(r.payload).value].expiresAt)
            && (answer.Success? ==> answer == Success(InspectionOnly))
  {
  }

  /** The errors, in the order of the checks. */
  lemma {:induction false} EachRefusal(db: Db, qr: Sync.Qr, r: Request, trip: Option<TripId>)
    ensures var answer := Validated(db, qr, r, trip).answer;
            var genuine, parsed := qr.verify(r.payload, r.signature), qr.parse(r.payload);
            && (answer == Failure(BadSignature) <==> !genuine && (parsed.None? || parsed.value in db.tickets))
            && (answer == Failure(UnknownReference) <==> !genuine && parsed.Some? && parsed.value !in db.tickets)
            && (answer == Failure(MalformedPayload) <==> genuine && parsed.None?)
            && (answer == Failure(NoActiveTrip) <==> genuine && parsed.Some? && trip.None?)
            && (answer == Failure(TicketNotFound) <==>
                  genuine && parsed.Some? && trip.Some? && parsed.value !in db.tickets)
            && (answer == Failure(TicketExpired) <==>
                  && trip.Some? && parsed.Some? && Presents(db, qr, r, parsed.value)
                  && r.checkedAt > db.tickets[parsed.value].expiresAt)
            && (answer == Failure(TicketAlreadyUsed) <==>
                  && trip.Some? && parsed.Some? && Presents(db, qr, r, parsed.value)
                  && r.checkedAt <= db.tickets[parsed.value].expiresAt
                  && !r.isInspection && db.tickets[parsed.value].status != Active)
  {
  }

  /** A ticket that a driver presents with a trip is logged with the result that it is answered. */
  lemma {:induction false} PresentedIsLogged(db: Db, qr: Sync.Qr, r: Request, trip: Option<TripId>, t: TicketId)
    requires Presents(db, qr, r, t) && trip.Some?
    ensures var row, out := db.tickets[t], Validated(db, qr, r, trip);
            out.after.events == Logged(db, r, t, trip,
              if r.checkedAt > row.expiresAt then ExpiredScan
              else if r.isInspection then InspectionOnly
              else if row.status == Active then Valid
              else AlreadyUsed)
  {
  }

  /** A forged payload that names a stored ticket is logged as such, without a trip; other refusals are not logged. */
  lemma {:induction false} OthersAreLogged(db: Db, qr: Sync.Qr, r: Request, trip: Option<TripId>)
    ensures var parsed, out := qr.parse(r.payload), Validated(db, qr, r, trip);
            && (!qr.verify(r.payload, r.signature) && parsed.Some? && parsed.value in db.tickets ==>
                  out.after.events == Logged(db, r, parsed.value, None, InvalidSignature))
            && (!qr.verify(r.payload, r.signature) && (parsed.None? || parsed.value !in db.tickets) ==>
                  out.after.events == db.events)
            && (qr.verify(r.payload, r.signature) && (trip.None? || parsed.None? || parsed.value !in db.tickets) ==>
                  out.after.events == db.events)
  {
  }

  /** A request marks the presented ticket used, at the time of its entry, iff it is answered VALID. */
  lemma {:induction false} OnlyValidWrites(db: Db, qr: Sync.Qr, r: Request, trip: Option<TripId>)
    ensures var out := Validated(db, qr, r, trip);
            && out.after == db.(tickets := out.after.tickets, events := out.after.events)
            && (out.answer != Success(Valid) ==> out.after.tickets == db.tickets)
            && (out.answer == Success(Valid) ==>
                  var t := qr.parse(r.payload);
                  && t.Some? && t.value in db.tickets
                  && out.after.tickets == db.tickets[t.value :=
                       db.tickets[t.value].(status := Used, usedAt := Some(r.scannedAt))])
  {
  }
}
