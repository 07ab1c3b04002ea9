/**
 The single reads and writes of `SingleWinner`, taken one operation after the other, are the whole
 operations that `Runs` takes as one step.
 */
module Refinement {
  import opened Wrappers
  import opened Store
  import opened SingleWinner
  import Sync
  import Expiry
  import Validation

  // ---- Online scans ----

  /** What the scan returns, as the answer to the driver. */
  function AnswerOf(result: ScanResult): Result<ScanResult, Error> {
    match result
    case Valid => Success(Valid)
    case InspectionOnly => Success(InspectionOnly)
    case ExpiredScan => Failure(TicketExpired)
    case AlreadyUsed => Failure(TicketAlreadyUsed)
    case InvalidSignature => Failure(TicketNotFound)
    case NotFound => Failure(TicketNotFound)
  }

  function Started(r: Validation.Request, t: TicketId, trip: TripId): Proc {
    Proc(t, r.driver, trip, r.isInspection, r.scannedAt, Entered)
  }

  function Scanned(s: System, p: ProcId, r: Validation.Request, t: TicketId, trip: TripId): System {
    var entered := Apply(s, Enter(p, Started(r, t, trip)));
    var checked := Apply(Apply(entered, Fetch(p)), Check(p, r.checkedAt));
    Apply(Apply(checked, Claim(p)), LogClaim(p))
  }

  /** The check, on the row as it is. */
  lemma {:induction false} CheckedStep(s: System, p: ProcId, r: Validation.Request, t: TicketId, trip: TripId)
    requires p !in s.procs && r.scannedAt <= r.checkedAt
    ensures var checked := Apply(Apply(Apply(s, Enter(p, Started(r, t, trip))), Fetch(p)), Check(p, r.checkedAt));
            var row := if t in s.db.tickets then Some(s.db.tickets[t]) else None;
            checked == Checked(FetchedState(s, p, r, t, trip), p, row, r.checkedAt)
  {
    var entered := Apply(s, Enter(p, Started(r, t, trip)));
    assert entered.procs == s.procs[p := Started(r, t, trip)];
    var row := if t in s.db.tickets then Some(s.db.tickets[t]) else None;
    assert Apply(entered, Fetch(p)).procs == s.procs[p := Started(r, t, trip).(phase := Fetched(row))];
  }

  lemma {:induction false} ReturnedIsDone(s: System, p: ProcId)
    requires p in s.procs && s.procs[p].phase.Returned?
    ensures Apply(Apply(s, Claim(p)), LogClaim(p)) == s
  {
  }

  /** The claim and its log entry, on the row as it is. */
  lemma {:induction false} ClaimStep(s: System, p: ProcId)
    requires p in s.procs && s.procs[p].phase == Claiming && s.procs[p].ticket in s.db.tickets
    ensures var proc := s.procs[p];
            var row := s.db.tickets[proc.ticket];
            var result := if row.status == Active then Valid else AlreadyUsed;
            var tickets := if row.status == Active
                           then s.db.tickets[proc.ticket := row.(status := Used, usedAt := Some(proc.scannedAt))]
                           else s.db.tickets;
            Apply(Apply(s, Claim(p)), LogClaim(p))
              == s.(db := s.db.(tickets := tickets, events := s.db.events + [Event(proc, result)]),
                    procs := s.procs[p := proc.(phase := Returned(result))])
  {
    var claimed := Apply(s, Claim(p));
    var proc := s.procs[p];
    var count := if s.db.tickets[proc.ticket].status == Active then 1 else 0;
    assert claimed.procs == s.procs[p := proc.(phase := Claimed(count))];
    var result := if count == 1 then Valid else AlreadyUsed;
    assert claimed.procs[p := proc.(phase := Returned(result))] == s.procs[p := proc.(phase := Returned(result))];
  }

  /** The decision of the check and, for a boarding request in time, of the claim. */
  function ResultOf(db: Db, r: Validation.Request, t: TicketId): ScanResult {
    if t !in db.tickets then InvalidSignature
    else if r.checkedAt > db.tickets[t].expiresAt then ExpiredScan
    else if r.isInspection then InspectionOnly
    else if db.tickets[t].status == Active then Valid
    else AlreadyUsed
  }

  /** The scan ends here: `s`, with the process returned, and with the event if the ticket is stored. */
  predicate EndsWith(s: System, after: System, p: ProcId, r: Validation.Request, t: TicketId, trip: TripId, result: ScanResult) {
    && after.procs == s.procs[p := Started(r, t, trip).(phase := Returned(result))]
    && after.offline == s.offline && after.jobs == s.jobs
    && after.db == s.db.(
         tickets := if result == Valid && t in s.db.tickets
                    then s.db.tickets[t := s.db.tickets[t].(status := Used, usedAt := Some(r.scannedAt))]
                    else s.db.tickets,
         events := if t in s.db.tickets
                   then s.db.events + [Validation.EventOf(r, t, Some(trip), result)] else s.db.events)
  }

  function FetchedState(s: System, p: ProcId, r: Validation.Request, t: TicketId, trip: TripId): System {
    var row := if t in s.db.tickets then Some(s.db.tickets[t]) else None;
    s.(procs := s.procs[p := Started(r, t, trip).(phase := Fetched(row))])
  }

  lemma {:induction false} CheckReturns(s: System, p: ProcId, r: Validation.Request, t: TicketId, trip: TripId)
    requires t in s.db.tickets ==>
      r.checkedAt > s.db.tickets[t].expiresAt || r.isInspection || s.db.tickets[t].status == Used
    ensures var row := if t in s.db.tickets then Some(s.db.tickets[t]) else None;
            EndsWith(s, Checked(FetchedState(s, p, r, t, trip), p, row, r.checkedAt), p, r, t, trip, ResultOf(s.db, r, t))
  {
    var fetched := FetchedState(s, p, r, t, trip);
    var result := ResultOf(s.db, r, t);
    assert fetched.procs[p := Started(r, t, trip).(phase := Returned(result))]
        == s.procs[p := Started(r, t, trip).(phase := Returned(result))];
  }

  lemma {:induction false} ClaimReturns(s: System, p: ProcId, r: Validation.Request, t: TicketId, trip: TripId)
    requires t in s.db.tickets && r.checkedAt <= s.db.tickets[t].expiresAt && !r.isInspection
    requires s.db.tickets[t].status != Used
    ensures var checked := Checked(FetchedState(s, p, r, t, trip), p, Some(s.db.tickets[t]), r.checkedAt);
            EndsWith(s, Apply(Apply(checked, Claim(p)), LogClaim(p)), p, r, t, trip, ResultOf(s.db, r, t))
  {
    var checked := Checked(FetchedState(s, p, r, t, trip), p, Some(s.db.tickets[t]), r.checkedAt);
    var result := ResultOf(s.db, r, t);
    assert checked.procs == s.procs[p := Started(r, t, trip).(phase := Claiming)];
    ClaimStep(checked, p);
    assert checked.procs[p := Started(r, t, trip).(phase := Returned(result))]
        == s.procs[p := Started(r, t, trip).(phase := Returned(result))];
  }

  lemma {:induction false} ScanReturns(s: System, p: ProcId, r: Validation.Request, t: TicketId, trip: TripId)
    requires p !in s.procs && r.scannedAt <= r.checkedAt
    ensures EndsWith(s, Scanned(s, p, r, t, trip), p, r, t, trip, ResultOf(s.db, r, t))
  {
    CheckedStep(s, p, r, t, trip);
    if t in s.db.tickets && r.checkedAt <= s.db.tickets[t].expiresAt && !r.isInspection
       && s.db.tickets[t].status != Used {
      ClaimReturns(s, p, r, t, trip);
    } else {
      var row := if t in s.db.tickets then Some(s.db.tickets[t]) else None;
      CheckReturns(s, p, r, t, trip);
      ReturnedIsDone(Checked(FetchedState(s, p, r, t, trip), p, row, r.checkedAt), p);
    }
  }

  /**
   Without anything in between, an accepted request leaves the rows and the event, and gets the answer,
   of the whole operation.
   */
  lemma {:induction false} ScanRefines(s: System, qr: Sync.Qr, p: ProcId, r: Validation.Request, t: TicketId, trip: TripId)
    requires p !in s.procs && r.scannedAt <= r.checkedAt
    requires qr.verify(r.payload, r.signature) && qr.parse(r.payload) == Some(t)
    ensures var after := Scanned(s, p, r, t, trip);
            && p in after.procs && after.procs[p].phase.Returned?
            && Validation.Outcome(after.db, AnswerOf(after.procs[p].phase.result))
            == Validation.Validated(s.db, qr, r, Some(trip))
  {
    ScanReturns(s, p, r, t, trip);
  }

  // ---- Offline scans ----

  lemma {:induction false} UnreadRefines(s: System, p: ProcId, d: Sync.Delivery)
    requires p !in s.offline && (d.scan.ticket !in s.db.tickets || Sync.Logged(s.db.events, d.scan))
    ensures Apply(Apply(s, OfflineRead(p, d)), OfflineWrite(p)) == s && Apply(s, OfflineLog(p)) == s
    ensures forall torn :: Sync.Deliver(s.db, d.(torn := torn)) == s.db
  {
  }

  /** An offline scan that is not interrupted is a delivery; one that stops before its event is a torn one. */
  lemma {:induction false} DeliveryRefines(s: System, p: ProcId, d: Sync.Delivery)
    requires p !in s.offline
    ensures var written := Apply(Apply(s, OfflineRead(p, d)), OfflineWrite(p));
            && written.db == Sync.Deliver(s.db, d.(torn := true))
            && Apply(written, OfflineLog(p)).db == Sync.Deliver(s.db, d.(torn := false))
            && Apply(written, OfflineLog(p)).offline == s.offline
  {
    var read := Apply(s, OfflineRead(p, d));
    if d.scan.ticket in s.db.tickets && !Sync.Logged(s.db.events, d.scan) {
      assert read.offline[p].delivery == d && read.db == s.db;
      var written := Apply(read, OfflineWrite(p));
      assert written.offline - {p} == s.offline;
    } else {
      UnreadRefines(s, p, d);
    }
  }

  // ---- The expiry job ----

  function RefundAll(s: System, p: ProcId, order: seq<TicketId>, now: int): System {
    if order == [] then s
    else Apply(RefundAll(s, p, order[..|order| - 1], now), JobRefund(p, order[|order| - 1], now))
  }

  lemma {:induction false} RefundsRefine(s: System, p: ProcId, order: seq<TicketId>, now: int)
    requires p in s.jobs && Expiry.Distinct(order) && forall i | 0 <= i < |order| :: order[i] in s.jobs[p]
    ensures var after := RefundAll(s, p, order, now);
            && after.db == Expiry.ExpireAll(s.db, order, now)
            && p in after.jobs && forall t | t in s.jobs[p] && t !in order :: t in after.jobs[p]
  {
    if order != [] {
      var n := |order| - 1;
      RefundsRefine(s, p, order[..n], now);
      assert order == order[..n] + [order[n]];
    }
  }

  /** A list that was read, refunded without anything in between, is a batch of the job. */
  lemma {:induction false} BatchRefines(s: System, p: ProcId, rows: seq<TicketId>, now: int)
    requires Expiry.ValidPick(s.db, now, rows)
    ensures RefundAll(Apply(s, JobRead(p, now)), p, rows, now).db == Expiry.ExpireAll(s.db, rows, now)
  {
    RefundsRefine(Apply(s, JobRead(p, now)), p, rows, now);
  }
}
