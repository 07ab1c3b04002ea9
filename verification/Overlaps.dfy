/**
 The books under every interleaving.  An offline scan reads its ticket, decides, and writes by id; a
 run of the expiry job refunds by id from the list it read.  Whatever comes in between, the books tell
 exactly how much money a run has created or destroyed, and which write was the first to break the fit
 of ticket rows and ledger rows.
 */
module Overlaps {
  import opened Wrappers
  import opened Store
  import opened Books
  import opened Steps
  import opened SingleWinner
  import Wallet
  import Tickets
  import Sync
  import Expiry

  /** The step refunds a stored ticket. */
  predicate IsRefund(s: System, a: Action) {
    a.JobRefund? && a.p in s.jobs && a.t in s.jobs[a.p] && a.t in s.db.tickets
  }

  /** The step is the ticket write of an offline scan. */
  predicate IsWrite(s: System, a: Action) {
    && a.OfflineWrite? && a.p in s.offline && !s.offline[a.p].written
    && s.offline[a.p].delivery.scan.ticket in s.db.tickets
  }

  function Target(s: System, a: Action): Ticket
    requires IsRefund(s, a) || IsWrite(s, a)
  {
    if a.JobRefund? then s.db.tickets[a.t] else s.db.tickets[s.offline[a.p].delivery.scan.ticket]
  }

  /** What the step pays out or holds beyond what it takes: negative if a fare is taken twice. */
  function Surplus(s: System, a: Action): int {
    if IsRefund(s, a) then RefundSurplus(Target(s, a))
    else if IsWrite(s, a) then WriteSurplus(Target(s, a), s.offline[a.p].verdict.write)
    else 0
  }

  function Excess(run: seq<Action>): int {
    if run == [] then 0
    else Excess(run[..|run| - 1]) + Surplus(Run(run[..|run| - 1]), run[|run| - 1])
  }

  /** The write meets its ticket in a status for which it would be decided on now. */
  predicate AptStep(s: System, a: Action) {
    && (IsRefund(s, a) ==> Target(s, a).status == Active)
    && (IsWrite(s, a) ==> Apt(Target(s, a), s.offline[a.p].verdict.write))
  }

  predicate AptRun(run: seq<Action>) {
    run == [] || (AptRun(run[..|run| - 1]) && AptStep(Run(run[..|run| - 1]), run[|run| - 1]))
  }

  // ---- What a step writes ----

  /** The tables after a step, by the kind of the step. */
  lemma {:induction false} StepWrites(s: System, a: Action)
    requires Funded(s.db)
    ensures var db, after := s.db, Apply(s, a).db;
            match a
            case Register(u) => after == Opened(db, u)
            case InitiateTopup(u, amount, ref, key) =>
              after == OrSame(db, Wallet.TopupInitiated(db, u, amount, ref, key))
            case Webhook(row, success) =>
              after == if row < |db.ledger| && db.ledger[row].kind == Topup then Wallet.Settled(db, row, success) else db
            case Purchase(u, fare, t, key, now) =>
              after == if fare > 0 then OrSame(db, Tickets.Purchased(db, u, fare, t, key, now)) else db
            case Claim(p) =>
              if p in s.procs && s.procs[p].phase == Claiming && s.procs[p].ticket in db.tickets
                 && db.tickets[s.procs[p].ticket].status == Active
              then after == WriteTo(db, s.procs[p].ticket, s.procs[p].scannedAt, Sync.MarkUsed)
              else after == db
            case OfflineWrite(p) =>
              if IsWrite(s, a)
              then after == WriteTo(db, s.offline[p].delivery.scan.ticket, s.offline[p].delivery.scan.scannedAt,
                                    s.offline[p].verdict.write)
              else after == db
            case JobRefund(p, t, now) => after == if IsRefund(s, a) then Expiry.ExpireOne(db, t, now) else db
            case _ => after == db.(events := after.events)
  {
  }

  lemma {:induction false} WriteBalances(s: System, a: Action, extra: int)
    requires Funded(s.db) && Balanced(s.db, extra) && (a.OfflineWrite? || a.JobRefund?)
    ensures Balanced(Apply(s, a).db, extra + Surplus(s, a))
  {
    StepWrites(s, a);
    if IsWrite(s, a) {
      var scan := s.offline[a.p].delivery.scan;
      WriteBalanced(s.db, scan.ticket, scan.scannedAt, s.offline[a.p].verdict.write, extra);
    } else if IsRefund(s, a) {
      RefundBalanced(s.db, a.t, a.now, extra);
    }
  }

  lemma {:induction false} OtherStepBalances(s: System, a: Action, extra: int)
    requires Funded(s.db) && Balanced(s.db, extra) && !a.OfflineWrite? && !a.JobRefund?
    ensures Balanced(Apply(s, a).db, extra)
  {
    StepWrites(s, a);
    match a
    case Register(u) => OpeningKeepsBalanced(s.db, u, extra);
    case InitiateTopup(u, amount, ref, key) => InitiationBalanced(s.db, u, amount, ref, key, extra);
    case Webhook(row, success) =>
      if row < |s.db.ledger| && s.db.ledger[row].kind == Topup {
        SettlingKeepsBalanced(s.db, row, success, extra);
      }
    case Purchase(u, fare, t, key, now) =>
      if fare > 0 {
        PurchaseBalanced(s.db, u, fare, t, key, now, extra);
      }
    case Claim(p) =>
      if p in s.procs && s.procs[p].ticket in s.db.tickets {
        WriteBalanced(s.db, s.procs[p].ticket, s.procs[p].scannedAt, Sync.MarkUsed, extra);
      }
    case _ => EventsBalanced(s.db, Apply(s, a).db.events, extra);
  }

  lemma {:induction false} StepBalances(s: System, a: Action, extra: int)
    requires Funded(s.db) && Balanced(s.db, extra)
    ensures Balanced(Apply(s, a).db, extra + Surplus(s, a))
  {
    if a.OfflineWrite? || a.JobRefund? {
      WriteBalances(s, a, extra);
    } else {
      OtherStepBalances(s, a, extra);
    }
  }

  lemma {:induction false} RowsPersist(s: System, a: Action)
    requires Funded(s.db)
    ensures Persists(s.db, Apply(s, a).db)
  {
    StepWrites(s, a);
    match a
    case Register(u) => OpeningPersists(s.db, u);
    case InitiateTopup(u, amount, ref, key) => InitiationPersists(s.db, u, amount, ref, key);
    case Webhook(row, success) =>
      if row < |s.db.ledger| {
        SettlingPersists(s.db, row, success);
      }
    case Purchase(u, fare, t, key, now) =>
      if fare > 0 {
        PurchasePersists(s.db, u, fare, t, key, now);
      }
    case Claim(p) =>
      if p in s.procs && s.procs[p].ticket in s.db.tickets {
        WritePersists(s.db, s.procs[p].ticket, s.procs[p].scannedAt, Sync.MarkUsed);
      }
    case OfflineWrite(p) =>
      if IsWrite(s, a) {
        var scan := s.offline[p].delivery.scan;
        WritePersists(s.db, scan.ticket, scan.scannedAt, s.offline[p].verdict.write);
      }
    case JobRefund(p, t, now) => RefundPersists(s.db, t, now);
    case _ =>
  }

  lemma {:induction false} StepFunded(s: System, a: Action)
    requires Funded(s.db)
    ensures Funded(Apply(s, a).db)
  {
    RowsPersist(s, a);
  }

  /** What the operations in progress rely on. */
  ghost predicate Pending(s: System) {
    && (forall p | p in s.offline :: OfflinePending(s.db, s.offline[p]))
    && forall p | p in s.procs :: ProcPending(s.db, s.procs[p])
  }

  predicate OfflinePending(db: Db, o: Offline) {
    && o.delivery.scan.ticket in db.tickets
    && (o.verdict.write != Sync.NoWrite ==>
          o.delivery.scan.scannedAt <= db.tickets[o.delivery.scan.ticket].expiresAt)
  }

  predicate ProcPending(db: Db, proc: Proc) {
    && (proc.phase.Fetched? && proc.phase.row.Some? ==>
          proc.ticket in db.tickets && proc.phase.row.value.expiresAt == db.tickets[proc.ticket].expiresAt)
    && (proc.phase == Claiming ==>
          proc.ticket in db.tickets && proc.scannedAt <= db.tickets[proc.ticket].expiresAt)
  }

  /** An offline scan in progress decided on the row that it read. */
  lemma {:induction false} OfflineAfter(s: System, a: Action, p: ProcId)
    requires p in Apply(s, a).offline
    ensures var o := Apply(s, a).offline[p];
            if p in s.offline then o == s.offline[p].(written := o.written)
            else
              && o.delivery.scan.ticket in s.db.tickets
              && o.verdict == Sync.Judge(s.db.tickets[o.delivery.scan.ticket],
                                         o.delivery.scan.scannedAt, o.delivery.scan.isInspection)
  {
  }

  lemma {:induction false} JudgedInTime(row: Ticket, at: int, isInspection: bool)
    ensures Sync.Judge(row, at, isInspection).write != Sync.NoWrite ==> at <= row.expiresAt
  {
  }

  /** An online scan that has read a row just did so, or had before. */
  lemma {:induction false} FetchedAfter(s: System, a: Action, p: ProcId)
    requires p in Apply(s, a).procs && Apply(s, a).procs[p].phase.Fetched? && Apply(s, a).procs[p].phase.row.Some?
    ensures var proc := Apply(s, a).procs[p];
            || (p in s.procs && proc == s.procs[p])
            || (proc.ticket in s.db.tickets && proc.phase.row.value == s.db.tickets[proc.ticket])
  {
  }

  /** One that is about to claim its ticket has read it and found it in time. */
  lemma {:induction false} ClaimingAfter(s: System, a: Action, p: ProcId)
    requires p in Apply(s, a).procs && Apply(s, a).procs[p].phase == Claiming
    ensures var proc := Apply(s, a).procs[p];
            && p in s.procs
            && (|| proc == s.procs[p]
                || (&& s.procs[p].phase.Fetched? && s.procs[p].phase.row.Some?
                    && proc == s.procs[p].(phase := Claiming)
                    && proc.scannedAt <= s.procs[p].phase.row.value.expiresAt))
  {
  }

  lemma {:induction false} StepPending(s: System, a: Action)
    requires Pending(s) && Funded(s.db)
    ensures Pending(Apply(s, a))
  {
    var after := Apply(s, a);
    RowsPersist(s, a);
    forall p | p in after.offline ensures OfflinePending(after.db, after.offline[p]) {
      OfflineAfter(s, a, p);
      var scan := after.offline[p].delivery.scan;
      if p !in s.offline {
        JudgedInTime(s.db.tickets[scan.ticket], scan.scannedAt, scan.isInspection);
      }
    }
    forall p | p in after.procs ensures ProcPending(after.db, after.procs[p]) {
      if after.procs[p].phase == Claiming {
        ClaimingAfter(s, a, p);
      } else if after.procs[p].phase.Fetched? && after.procs[p].phase.row.Some? {
        FetchedAfter(s, a, p);
      }
    }
  }

  /** A step that is no write by id keeps the fit of tickets and ledger. */
  lemma {:induction false} OtherStepFits(s: System, a: Action)
    requires Ticketed(s.db, true) && Pending(s) && !a.OfflineWrite? && !a.JobRefund?
    ensures Ticketed(Apply(s, a).db, true)
  {
    Weaken(s.db, true);
    StepWrites(s, a);
    match a
    case Register(u) => OpeningFits(s.db, u, true);
    case InitiateTopup(u, amount, ref, key) => InitiationFits(s.db, u, amount, ref, key, true);
    case Webhook(row, success) =>
      if row < |s.db.ledger| && s.db.ledger[row].kind == Topup {
        SettlingFits(s.db, row, success, true);
      }
    case Purchase(u, fare, t, key, now) =>
      if fare > 0 {
        PurchaseFits(s.db, u, fare, t, key, now, true);
      }
    case Claim(p) =>
      if p in s.procs && s.procs[p].phase == Claiming && s.db.tickets[s.procs[p].ticket].status == Active {
        WriteFits(s.db, s.procs[p].ticket, s.procs[p].scannedAt, Sync.MarkUsed, true);
      }
    case _ => EventsFit(s.db, Apply(s, a).db.events, true);
  }

  /** A step keeps the fit of tickets and ledger iff it is no write that has become inapt. */
  lemma {:induction false} StepFitsIffApt(s: System, a: Action)
    requires Ticketed(s.db, true) && Pending(s)
    ensures Ticketed(Apply(s, a).db, true) <==> AptStep(s, a)
  {
    if a.OfflineWrite? || a.JobRefund? {
      Weaken(s.db, true);
      StepWrites(s, a);
      if IsWrite(s, a) {
        var scan := s.offline[a.p].delivery.scan;
        WriteFitsIffApt(s.db, scan.ticket, scan.scannedAt, s.offline[a.p].verdict.write);
      } else if IsRefund(s, a) {
        RefundFitsIffActive(s.db, a.t, a.now);
      }
    } else {
      OtherStepFits(s, a);
    }
  }

  // ---- The theorems ----

  lemma {:induction false} StartIsFine()
    ensures Ticketed(START.db, true) && Balanced(START.db, 0) && Pending(START)
  {
    assert Held(START.db.tickets) == map[];
  }

  /**
   In every interleaving: balances plus fares of unrefunded tickets are the completed top-ups plus the
   excess of the run; each balance is the fold of its entries in completion order; each recorded
   running balance is a prefix of that fold; and a wallet is overdrawn at most by its reversals.
   */
  lemma {:induction false} RunKeepsBooks(run: seq<Action>)
    ensures Balanced(Run(run).db, Excess(run)) && Funded(Run(run).db) && Pending(Run(run))
  {
    if run == [] {
      StartIsFine();
    } else {
      var prefix, a := run[..|run| - 1], run[|run| - 1];
      RunKeepsBooks(prefix);
      StepBalances(Run(prefix), a, Excess(prefix));
      StepFunded(Run(prefix), a);
      StepPending(Run(prefix), a);
    }
  }

  lemma {:induction false} AptFits(run: seq<Action>)
    requires AptRun(run)
    ensures Ticketed(Run(run).db, true)
  {
    if run == [] {
      StartIsFine();
    } else {
      var prefix := run[..|run| - 1];
      AptFits(prefix);
      RunKeepsBooks(prefix);
      StepFitsIffApt(Run(prefix), run[|run| - 1]);
    }
  }

  lemma {:induction false} AptPrefix(run: seq<Action>, n: nat)
    requires n <= |run| && AptRun(run)
    ensures AptRun(run[..n])
  {
    if n < |run| {
      AptPrefix(run[..|run| - 1], n);
      assert run[..|run| - 1][..n] == run[..n];
    } else {
      assert run[..n] == run;
    }
  }

  /** The state right after the first inapt write does not fit. */
  lemma {:induction false} InaptBreaks(run: seq<Action>) returns (n: nat)
    requires !AptRun(run)
    ensures n <= |run| && !Ticketed(Run(run[..n]).db, true)
  {
    var prefix, a := run[..|run| - 1], run[|run| - 1];
    n := |run|;
    assert run[..n] == run;
    if AptRun(prefix) {
      AptFits(prefix);
      RunKeepsBooks(prefix);
      StepFitsIffApt(Run(prefix), a);
    } else {
      n := InaptBreaks(prefix);
      assert run[..n] == prefix[..n];
    }
  }

  /** Ticket rows and ledger rows fit all along an interleaving iff every write of it is still apt. */
  lemma {:induction false} FitsIffApt(run: seq<Action>)
    ensures (forall n | 0 <= n <= |run| :: Ticketed(Run(run[..n]).db, true)) <==> AptRun(run)
  {
    if AptRun(run) {
      forall n | 0 <= n <= |run| ensures Ticketed(Run(run[..n]).db, true) {
        AptPrefix(run, n);
        AptFits(run[..n]);
      }
    } else {
      var n := InaptBreaks(run);
    }
  }

  /** Money is conserved at the end of an interleaving iff what it created and destroyed cancel out. */
  lemma {:induction false} ConservedIffNoExcess(run: seq<Action>)
    ensures Conserved(Run(run).db, 0) <==> Excess(run) == 0
  {
    RunKeepsBooks(run);
  }

  /** Apt runs create and destroy none. */
  lemma {:induction false} AptConserves(run: seq<Action>)
    requires AptRun(run)
    ensures Excess(run) == 0 && Conserved(Run(run).db, 0)
  {
    if run != [] {
      AptConserves(run[..|run| - 1]);
    }
    RunKeepsBooks(run);
  }

  // ---- Overdrafts ----

  /** The step takes back a refund, perhaps for the second time, that the passenger no longer has. */
  predicate TakesBackSpentRefund(s: System, a: Action) {
    && IsWrite(s, a) && s.offline[a.p].verdict.write == Sync.ReverseRefund
    && var row := Target(s, a);
       row.passenger in s.db.balances && s.db.balances[row.passenger] < row.fare
  }

  /** Under every interleaving, balances stay non-negative in a step iff it takes back no spent refund. */
  lemma {:induction false} StaysNonNegativeIff(s: System, a: Action)
    requires Funded(s.db) && WellKept(s.db) && NonNegative(s.db)
    ensures NonNegative(Apply(s, a).db) <==> !TakesBackSpentRefund(s, a)
  {
    StepWrites(s, a);
    match a
    case Webhook(row, success) =>
      if row < |s.db.ledger| {
        SettledNonNegative(s.db, row, success);
      }
    case Claim(p) =>
      if p in s.procs && s.procs[p].ticket in s.db.tickets {
        WriteNonNegative(s.db, s.procs[p].ticket, s.procs[p].scannedAt, Sync.MarkUsed);
      }
    case OfflineWrite(p) =>
      if IsWrite(s, a) {
        var scan := s.offline[p].delivery.scan;
        WriteNonNegative(s.db, scan.ticket, scan.scannedAt, s.offline[p].verdict.write);
      }
    case _ =>
  }
}
