/**
 Concurrent boarding.  Here the operations are cut into their single reads and writes, and any number
 of them interleave in any way: online validations (read, conditional update, log), offline scans
 (read, write by id, log) and runs of the expiry job, each refunding once each id of the list that it
 read, however stale that is by then.

 Only requests whose signature, payload and trip were accepted appear: the others write no ticket.
 */
module SingleWinner {
  import opened Wrappers
  import opened Store
  import Books
  import Wallet
  import Tickets
  import Sync
  import Expiry

  type ProcId(==, !new)

  datatype Phase =
    | Entered
    | Fetched(row: Option<Ticket>)
    | Claiming
    | Claimed(count: nat)
    | Returned(result: ScanResult)

  /** One online validation in progress. */
  datatype Proc = Proc(ticket: TicketId, driver: UserId, trip: TripId, isInspection: bool, scannedAt: int, phase: Phase)

  /** An offline scan that has read its ticket and decided, and what it still has to do. */
  datatype Offline = Offline(delivery: Sync.Delivery, verdict: Sync.Verdict, written: bool)

  datatype System = System(
    db: Db,
    procs: map<ProcId, Proc>,
    offline: map<ProcId, Offline>,
    jobs: map<ProcId, set<TicketId>>)

  datatype Action =
    | Enter(p: ProcId, proc: Proc)
    | Fetch(p: ProcId)
    | Check(p: ProcId, now: int)
    | Claim(p: ProcId)
    | LogClaim(p: ProcId)
    | Register(u: UserId)
    | InitiateTopup(u: UserId, amount: int, ref: Ref, key: Key)
    | Webhook(row: nat, success: bool)
    | Purchase(u: UserId, fare: int, t: TicketId, key: Key, now: int)
    | OfflineRead(p: ProcId, delivery: Sync.Delivery)
    | OfflineWrite(p: ProcId)
    | OfflineLog(p: ProcId)
    | JobRead(p: ProcId, now: int)
    | JobRefund(p: ProcId, t: TicketId, now: int)

  function Event(proc: Proc, result: ScanResult): ScanEvent {
    ScanEvent(proc.ticket, proc.driver, Some(proc.trip), result, proc.isInspection, false, proc.scannedAt, None)
  }

  /** Log the result and answer the driver. */
  function Return(s: System, p: ProcId, result: ScanResult, logged: bool): System
    requires p in s.procs
  {
    var proc := s.procs[p];
    s.(procs := s.procs[p := proc.(phase := Returned(result))],
       db := if logged then s.db.(events := s.db.events + [Event(proc, result)]) else s.db)
  }

  /** The decision on the row as it was read; what changed since does not matter here. */
  function Checked(s: System, p: ProcId, row: Option<Ticket>, now: int): System
    requires p in s.procs
  {
    var proc := s.procs[p];
    if row.None? then Return(s, p, InvalidSignature, false)
    else if now > row.value.expiresAt then Return(s, p, ExpiredScan, true)
    else if proc.isInspection then Return(s, p, InspectionOnly, true)
    else if row.value.status == Used then Return(s, p, AlreadyUsed, true)
    else s.(procs := s.procs[p := proc.(phase := Claiming)])
  }

  /** The conditional update on the row as it is now. */
  function ClaimedBy(s: System, p: ProcId): System
    requires p in s.procs
  {
    var proc := s.procs[p];
    var t := proc.ticket;
    if t in s.db.tickets && s.db.tickets[t].status == Active then
      var used := s.db.tickets[t].(status := Used, usedAt := Some(proc.scannedAt));
      s.(db := s.db.(tickets := s.db.tickets[t := used]),
         procs := s.procs[p := proc.(phase := Claimed(1))])
    else s.(procs := s.procs[p := proc.(phase := Claimed(0))])
  }

  function Apply(s: System, a: Action): System {
    match a
    case Enter(p, proc) =>
      if p in s.procs then s else s.(procs := s.procs[p := proc.(phase := Entered)])
    case Fetch(p) =>
      if p !in s.procs || s.procs[p].phase != Entered then s
      else
        var proc := s.procs[p];
        var row := if proc.ticket in s.db.tickets then Some(s.db.tickets[proc.ticket]) else None;
        s.(procs := s.procs[p := proc.(phase := Fetched(row))])
    case Check(p, now) =>
      if p !in s.procs || !s.procs[p].phase.Fetched? || now < s.procs[p].scannedAt then s
      else Checked(s, p, s.procs[p].phase.row, now)
    case Claim(p) =>
      if p !in s.procs || s.procs[p].phase != Claiming then s else ClaimedBy(s, p)
    case LogClaim(p) =>
      if p !in s.procs || !s.procs[p].phase.Claimed? then s
      else Return(s, p, if s.procs[p].phase.count == 0 then AlreadyUsed else Valid, true)
    case Register(u) => s.(db := Books.Opened(s.db, u))
    case InitiateTopup(u, amount, ref, key) =>
      s.(db := OrSame(s.db, Wallet.TopupInitiated(s.db, u, amount, ref, key)))
    case Webhook(row, success) =>
      if row >= |s.db.ledger| || s.db.ledger[row].kind != Topup then s
      else s.(db := Wallet.Settled(s.db, row, success))
    case Purchase(u, fare, t, key, now) =>
      if fare <= 0 then s
      else s.(db := OrSame(s.db, Tickets.Purchased(s.db, u, fare, t, key, now)))
    case OfflineRead(p, d) =>
      if p in s.offline || d.scan.ticket !in s.db.tickets || Sync.Logged(s.db.events, d.scan) then s
      else
        var v := Sync.Judge(s.db.tickets[d.scan.ticket], d.scan.scannedAt, d.scan.isInspection);
        s.(offline := s.offline[p := Offline(d, v, false)])
    case OfflineWrite(p) =>
      if p !in s.offline || s.offline[p].written || s.offline[p].delivery.scan.ticket !in s.db.tickets then s
      else
        var o := s.offline[p];
        var scan := o.delivery.scan;
        var written := Sync.Written(s.db, scan.ticket, scan.scannedAt, o.verdict.write);
        if written.Failure? then s.(offline := s.offline - {p})
        else s.(db := written.value, offline := s.offline[p := o.(written := true)])
    case OfflineLog(p) =>
      if p !in s.offline || !s.offline[p].written then s
      else
        var o := s.offline[p];
        var e := Sync.EventOf(o.delivery.scan, o.verdict.result, o.delivery.trip, o.delivery.syncedAt);
        s.(db := s.db.(events := s.db.events + [e]), offline := s.offline - {p})
    case JobRead(p, now) =>
      s.(jobs := s.jobs[p := Expiry.Overdue(s.db, now)])
    case JobRefund(p, t, now) =>
      if p !in s.jobs || t !in s.jobs[p] then s
      else s.(db := Expiry.ExpireOne(s.db, t, now), jobs := s.jobs[p := s.jobs[p] - {t}])
  }

  const START := System(EMPTY, map[], map[], map[])

  function Run(run: seq<Action>): System {
    if run == [] then START else Apply(Run(run[..|run| - 1]), run[|run| - 1])
  }

  // ---- The invariant ----

  /** `p` has won its ticket: its update applied, or it has already answered VALID. */
  predicate Won(proc: Proc) {
    (proc.phase.Claimed? && proc.phase.count > 0) || proc.phase == Returned(Valid)
  }

  predicate Spent(db: Db, t: TicketId) {
    t in db.tickets && db.tickets[t].status != Active
  }

  /** The online VALID events of `t`. */
  function OnlineValid(events: seq<ScanEvent>, t: TicketId): nat {
    if events == [] then 0
    else
      var e := events[|events| - 1];
      OnlineValid(events[..|events| - 1], t) + if e.ticket == t && e.result == Valid && !e.isOffline then 1 else 0
  }

  lemma {:induction false} OnlineValidPush(events: seq<ScanEvent>, e: ScanEvent, t: TicketId)
    ensures OnlineValid(events + [e], t)
         == OnlineValid(events, t) + if e.ticket == t && e.result == Valid && !e.isOffline then 1 else 0
  {
    assert (events + [e])[..|events|] == events;
  }

  predicate Answered(s: System, t: TicketId) {
    exists p | p in s.procs :: s.procs[p].ticket == t && s.procs[p].phase == Returned(Valid)
  }

  ghost predicate Safe(s: System) {
    && (forall p | p in s.procs && Won(s.procs[p]) :: Spent(s.db, s.procs[p].ticket))
    && (forall p, q | p in s.procs && q in s.procs && Won(s.procs[p]) && Won(s.procs[q])
                   && s.procs[p].ticket == s.procs[q].ticket :: p == q)
    && forall t :: OnlineValid(s.db.events, t) == if Answered(s, t) then 1 else 0
  }

  /** No step ever writes ACTIVE to an existing ticket. */
  lemma {:induction false} NeverActiveAgain(s: System, a: Action, t: TicketId)
    requires Spent(s.db, t)
    ensures Spent(Apply(s, a).db, t)
  {
  }

  /** Steps that touch neither the processes nor the online log. */
  lemma {:induction false} OtherStepSafe(s: System, a: Action)
    requires Safe(s) && Apply(s, a).procs == s.procs
    requires forall t :: OnlineValid(Apply(s, a).db.events, t) == OnlineValid(s.db.events, t)
    ensures Safe(Apply(s, a))
  {
    var after := Apply(s, a);
    forall p | p in s.procs && Won(s.procs[p]) ensures Spent(after.db, s.procs[p].ticket) {
      NeverActiveAgain(s, a, s.procs[p].ticket);
    }
    assert forall t :: Answered(after, t) == Answered(s, t);
  }

  /** A process that had not won moves on without winning. */
  lemma {:induction false} LoserStepSafe(s: System, after: System, p: ProcId)
    requires Safe(s) && p in after.procs && after.procs == s.procs[p := after.procs[p]]
    requires !Won(after.procs[p]) && (p in s.procs ==> !Won(s.procs[p]))
    requires after.db.tickets == s.db.tickets
    requires forall t :: OnlineValid(after.db.events, t) == OnlineValid(s.db.events, t)
    ensures Safe(after)
  {
    forall t ensures Answered(after, t) == Answered(s, t) {
      if q :| q in s.procs && s.procs[q].ticket == t && s.procs[q].phase == Returned(Valid) {
        assert q != p && after.procs[q] == s.procs[q];
      }
    }
  }

  lemma {:induction false} ReturnSafe(s: System, p: ProcId, result: ScanResult, logged: bool)
    requires Safe(s) && p in s.procs && !Won(s.procs[p]) && result != Valid
    ensures Safe(Return(s, p, result, logged))
  {
    forall t ensures OnlineValid(Return(s, p, result, logged).db.events, t) == OnlineValid(s.db.events, t) {
      OnlineValidPush(s.db.events, Event(s.procs[p], result), t);
    }
    LoserStepSafe(s, Return(s, p, result, logged), p);
  }

  lemma {:induction false} CheckSafe(s: System, p: ProcId, row: Option<Ticket>, now: int)
    requires Safe(s) && p in s.procs && !Won(s.procs[p])
    ensures Safe(Checked(s, p, row, now))
  {
    if row.None? {
      ReturnSafe(s, p, InvalidSignature, false);
    } else if now > row.value.expiresAt {
      ReturnSafe(s, p, ExpiredScan, true);
    } else if s.procs[p].isInspection {
      ReturnSafe(s, p, InspectionOnly, true);
    } else if row.value.status == Used {
      ReturnSafe(s, p, AlreadyUsed, true);
    } else {
      LoserStepSafe(s, Checked(s, p, row, now), p);
    }
  }

  /** The update applies only to an ACTIVE row, and no winner's row is ACTIVE any more. */
  lemma {:induction false} ClaimSafe(s: System, p: ProcId)
    requires Safe(s) && p in s.procs && s.procs[p].phase == Claiming
    ensures Safe(ClaimedBy(s, p))
  {
    var t, after := s.procs[p].ticket, ClaimedBy(s, p);
    if t in s.db.tickets && s.db.tickets[t].status == Active {
      forall q | q in s.procs && Won(s.procs[q]) ensures s.procs[q].ticket != t && after.procs[q] == s.procs[q] {
        assert Spent(s.db, s.procs[q].ticket);
      }
      forall x ensures Answered(after, x) == Answered(s, x) {
        if q :| q in s.procs && s.procs[q].ticket == x && s.procs[q].phase == Returned(Valid) {
          assert after.procs[q] == s.procs[q];
        }
      }
    } else {
      LoserStepSafe(s, after, p);
    }
  }

  lemma {:induction false} LogClaimSafe(s: System, p: ProcId)
    requires Safe(s) && p in s.procs && s.procs[p].phase.Claimed?
    ensures Safe(Apply(s, LogClaim(p)))
  {
    var proc, after := s.procs[p], Apply(s, LogClaim(p));
    if proc.phase.count == 0 {
      ReturnSafe(s, p, AlreadyUsed, true);
    } else {
      assert !Answered(s, proc.ticket);
      forall t ensures OnlineValid(after.db.events, t) == if Answered(after, t) then 1 else 0 {
        OnlineValidPush(s.db.events, Event(proc, Valid), t);
        if t == proc.ticket {
          assert after.procs[p].phase == Returned(Valid);
        } else if q :| q in s.procs && s.procs[q].ticket == t && s.procs[q].phase == Returned(Valid) {
          assert after.procs[q] == s.procs[q];
        }
      }
    }
  }

  lemma {:induction false} ApplySafe(s: System, a: Action)
    requires Safe(s)
    ensures Safe(Apply(s, a))
  {
    var after := Apply(s, a);
    if after != s {
      match a
      case Enter(p, _) => LoserStepSafe(s, after, p);
      case Fetch(p) => LoserStepSafe(s, after, p);
      case Check(p, now) => CheckSafe(s, p, s.procs[p].phase.row, now);
      case Claim(p) => ClaimSafe(s, p);
      case LogClaim(p) => LogClaimSafe(s, p);
      case OfflineLog(p) =>
        forall t ensures OnlineValid(after.db.events, t) == OnlineValid(s.db.events, t) {
          OnlineValidPush(s.db.events, after.db.events[|s.db.events|], t);
        }
        OtherStepSafe(s, a);
      case _ => OtherStepSafe(s, a);
    }
  }

  lemma {:induction false} RunSafe(run: seq<Action>)
    ensures Safe(Run(run))
  {
    if run != [] {
      RunSafe(run[..|run| - 1]);
      ApplySafe(Run(run[..|run| - 1]), run[|run| - 1]);
    }
  }

  /**
   In every interleaving at most one online scan of a ticket answers VALID, and the log then holds
   exactly one online VALID event for it.
   */
  lemma {:induction false} AtMostOneValid(run: seq<Action>, p: ProcId, q: ProcId)
    requires p in Run(run).procs && q in Run(run).procs
    requires Run(run).procs[p].ticket == Run(run).procs[q].ticket
    requires Run(run).procs[p].phase == Run(run).procs[q].phase == Returned(Valid)
    ensures p == q
    ensures OnlineValid(Run(run).db.events, Run(run).procs[p].ticket) == 1
  {
    RunSafe(run);
  }

  /** The losers of a race are told so: a claim on a ticket that somebody has won never applies. */
  lemma {:induction false} LaterClaimsLose(run: seq<Action>, p: ProcId, q: ProcId)
    requires p in Run(run).procs && q in Run(run).procs
    requires Run(run).procs[p].ticket == Run(run).procs[q].ticket
    requires Won(Run(run).procs[p]) && Run(run).procs[q].phase == Claiming
    ensures Apply(Run(run), Claim(q)).procs[q].phase == Claimed(0)
    ensures Apply(Run(run), Claim(q)).db == Run(run).db
  {
    RunSafe(run);
  }
}
