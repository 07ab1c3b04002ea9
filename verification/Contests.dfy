/**
 When the order of arrival matters.  All deliveries of some scans end with the same tickets iff every
 contest is decided: no ticket's final row hangs on a boarding scan that an inspection may hide.
 */
module Contests {
  import opened Store
  import opened Sync
  import opened Convergence

  function BoardingTimes(db: Db, ds: seq<Delivery>, t: TicketId): set<int> {
    set d | d in ds && Boards(db, d.scan, t) :: d.scan.scannedAt
  }

  /** An inspection in `whole` may be logged in place of the scan `p`. */
  predicate Contested(whole: set<Presented>, p: Presented) {
    p.(isInspection := true) in whole
  }

  /** The boarding times that no inspection in `whole` can hide. */
  function SureTimes(db: Db, whole: set<Presented>, ds: seq<Delivery>, t: TicketId): set<int> {
    set d | d in ds && Boards(db, d.scan, t) && !Contested(whole, d.scan) :: d.scan.scannedAt
  }

  predicate Preceded(x: int, times: set<int>) {
    exists y | y in times :: y <= x
  }

  /** Each boarding scan is contested by nothing, or comes no earlier than a use that is certain. */
  predicate Decided(db: Db, whole: set<Presented>, ds: seq<Delivery>) {
    forall t, x | t in db.tickets && x in BoardingTimes(db, ds, t) ::
      Preceded(x, UseTimes(db.tickets[t], SureTimes(db, whole, ds, t)))
  }

  /** Scans of one ticket by one driver at one instant agree on whether they were inspections. */
  predicate Agree(ds: seq<Delivery>) {
    forall i, j | 0 <= i < |ds| && 0 <= j < |ds| :: Twins(ds[i].scan, ds[j].scan) ==> ds[i].scan == ds[j].scan
  }

  /** Agreement decides everything. */
  lemma {:induction false} AgreeingIsDecided(db: Db, ds: seq<Delivery>)
    requires Agree(ds)
    ensures Decided(db, Scans(ds), ds)
  {
    forall d | d in ds && !d.scan.isInspection ensures !Contested(Scans(ds), d.scan) {
      forall e | e in ds && Twins(d.scan, e.scan) ensures e.scan == d.scan {
      }
    }
    forall t, x | t in db.tickets && x in BoardingTimes(db, ds, t)
      ensures Preceded(x, UseTimes(db.tickets[t], SureTimes(db, Scans(ds), ds, t)))
    {
      assert x in SureTimes(db, Scans(ds), ds, t);
      assert x in UseTimes(db.tickets[t], SureTimes(db, Scans(ds), ds, t));
    }
  }

  // ---- Decided contests do not show ----

  lemma {:induction false} FirstApplies(ds: seq<Delivery>, i: nat, p: Presented)
    requires i < |ds| && ds[i].scan == p && Unhidden(ds, p)
    ensures Applies(ds, p)
  {
    assert Unhidden(ds[..i], p);
  }

  /** What applies lies between what is certain and what is presented. */
  lemma {:induction false} AppliedBetween(db: Db, whole: set<Presented>, ds: seq<Delivery>, t: TicketId)
    requires Complete(ds) <= whole
    ensures SureTimes(db, whole, ds, t) <= AppliedTimes(db, ds, t) <= BoardingTimes(db, ds, t)
  {
    forall x | x in SureTimes(db, whole, ds, t) ensures x in AppliedTimes(db, ds, t) {
      var d :| d in ds && Boards(db, d.scan, t) && !Contested(whole, d.scan) && d.scan.scannedAt == x;
      forall e | e in ds ensures !Hides(e, d.scan) {
        assert !e.torn ==> e.scan in Complete(ds);
      }
      var i :| 0 <= i < |ds| && ds[i] == d;
      FirstApplies(ds, i, d.scan);
    }
  }

  /** Where all boarding times are preceded by certain ones, the hidden ones make no difference. */
  lemma {:induction false} DecidedSettles(before: Ticket, sure: set<int>, times: set<int>, all: set<int>, row: Ticket)
    requires sure <= times <= all && Settles(before, times, row)
    requires forall x | x in all :: Preceded(x, UseTimes(before, sure))
    ensures Settles(before, all, row)
  {
    if all == {} {
      assert times == {};
    } else {
      forall z | z in all ensures row.usedAt.Some? && row.usedAt.value <= z && row.status == Used {
        var y :| y in UseTimes(before, sure) && y <= z;
        assert times == {} ==> sure == {};
      }
      assert exists z :: z in all;
    }
  }

  /** With all contests decided each ticket settles on all the boarding times presented. */
  lemma {:induction false} DecidedConverges(db: Db, whole: set<Presented>, ds: seq<Delivery>, t: TicketId)
    requires RefundsHaveWallets(db) && Complete(ds) <= whole && Decided(db, whole, ds) && t in db.tickets
    ensures t in DeliverAll(db, ds).tickets
    ensures Settles(db.tickets[t], BoardingTimes(db, ds, t), DeliverAll(db, ds).tickets[t])
  {
    RunConverges(db, ds);
    AppliedBetween(db, whole, ds, t);
    DecidedSettles(db.tickets[t], SureTimes(db, whole, ds, t), AppliedTimes(db, ds, t), BoardingTimes(db, ds, t),
                   DeliverAll(db, ds).tickets[t]);
  }

  lemma {:induction false} SameTimes(db: Db, a: seq<Delivery>, b: seq<Delivery>, t: TicketId)
    requires Scans(a) == Scans(b)
    ensures BoardingTimes(db, a, t) <= BoardingTimes(db, b, t)
  {
    forall x | x in BoardingTimes(db, a, t) ensures x in BoardingTimes(db, b, t) {
      var d :| d in a && Boards(db, d.scan, t) && d.scan.scannedAt == x;
      assert d.scan in Scans(b);
      var e :| e in b && e.scan == d.scan;
    }
  }

  lemma {:induction false} SameSureTimes(db: Db, whole: set<Presented>, a: seq<Delivery>, b: seq<Delivery>, t: TicketId)
    requires Scans(a) == Scans(b)
    ensures SureTimes(db, whole, a, t) <= SureTimes(db, whole, b, t)
  {
    forall x | x in SureTimes(db, whole, a, t) ensures x in SureTimes(db, whole, b, t) {
      var d :| d in a && Boards(db, d.scan, t) && !Contested(whole, d.scan) && d.scan.scannedAt == x;
      assert d.scan in Scans(b);
      var e :| e in b && e.scan == d.scan;
    }
  }

  /** Whether contests are decided is a matter of the scans, not of their deliveries. */
  lemma {:induction false} DecidedByScans(db: Db, whole: set<Presented>, a: seq<Delivery>, b: seq<Delivery>)
    requires Scans(a) == Scans(b) && Decided(db, whole, a)
    ensures Decided(db, whole, b)
  {
    forall t, x | t in db.tickets && x in BoardingTimes(db, b, t)
      ensures Preceded(x, UseTimes(db.tickets[t], SureTimes(db, whole, b, t)))
    {
      SameTimes(db, b, a, t);
      SameSureTimes(db, whole, a, b, t);
      SameSureTimes(db, whole, b, a, t);
    }
  }

  lemma {:induction false} DecidedRow(db: Db, whole: set<Presented>, a: seq<Delivery>, b: seq<Delivery>, t: TicketId)
    requires RefundsHaveWallets(db) && Scans(a) == Scans(b) && Complete(a) <= whole && Complete(b) <= whole
    requires Decided(db, whole, a) && Decided(db, whole, b) && t in db.tickets
    ensures t in DeliverAll(db, a).tickets && t in DeliverAll(db, b).tickets
    ensures DeliverAll(db, a).tickets[t] == DeliverAll(db, b).tickets[t]
  {
    DecidedConverges(db, whole, a, t);
    DecidedConverges(db, whole, b, t);
    SameTimes(db, a, b, t);
    SameTimes(db, b, a, t);
    SettlesUniquely(db.tickets[t], BoardingTimes(db, a, t), DeliverAll(db, a).tickets[t], DeliverAll(db, b).tickets[t]);
  }

  lemma {:induction false} DecidedOutcome(db: Db, whole: set<Presented>, a: seq<Delivery>, b: seq<Delivery>)
    requires RefundsHaveWallets(db) && Scans(a) == Scans(b) && Complete(a) <= whole && Complete(b) <= whole
    requires Decided(db, whole, a)
    ensures SameOutcome(db, a, b)
  {
    DecidedByScans(db, whole, a, b);
    RunGrows(db, a);
    RunGrows(db, b);
    forall t | t in db.tickets ensures DeliverAll(db, a).tickets[t] == DeliverAll(db, b).tickets[t] {
      DecidedRow(db, whole, a, b, t);
    }
    SameTicketsSuffice(db, a, b);
  }

  /** Only the set of scans presented decides the final ticket rows and balances. */
  lemma {:induction false} OnlyTheSetMatters(db: Db, a: seq<Delivery>, b: seq<Delivery>)
    requires Scans(a) == Scans(b) && Decided(db, Scans(a), a) && RefundsHaveWallets(db)
    ensures SameOutcome(db, a, b)
  {
    assert Complete(a) <= Scans(a) && Complete(b) <= Scans(b);
    DecidedOutcome(db, Scans(a), a, b);
  }

  lemma {:induction false} PermutedScans(a: seq<Delivery>, b: seq<Delivery>)
    requires multiset(a) == multiset(b)
    ensures Scans(a) == Scans(b) && Complete(a) == Complete(b)
  {
    forall d ensures d in a <==> d in b {
      assert d in a <==> d in multiset(a);
      assert d in b <==> d in multiset(b);
    }
  }

  /** Every permutation of a sequence of deliveries ends alike. */
  lemma {:induction false} PermutationsConverge(db: Db, a: seq<Delivery>, b: seq<Delivery>)
    requires multiset(a) == multiset(b) && Decided(db, Complete(a), a) && RefundsHaveWallets(db)
    ensures SameOutcome(db, a, b)
  {
    PermutedScans(a, b);
    DecidedOutcome(db, Complete(a), a, b);
  }

  // ---- Undecided contests do ----

  /** The deliveries of inspections, or those of boarding scans. */
  function Only(ds: seq<Delivery>, isInspection: bool): seq<Delivery> {
    if ds == [] then []
    else
      var d := ds[|ds| - 1];
      Only(ds[..|ds| - 1], isInspection) + if d.scan.isInspection == isInspection then [d] else []
  }

  lemma {:induction false} InOnly(ds: seq<Delivery>, isInspection: bool, d: Delivery)
    ensures d in Only(ds, isInspection) <==> d in ds && d.scan.isInspection == isInspection
  {
    if ds != [] {
      InOnly(ds[..|ds| - 1], isInspection, d);
      assert ds == ds[..|ds| - 1] + [ds[|ds| - 1]];
    }
  }

  lemma {:induction false} OnlyPush(prefix: seq<Delivery>, d: Delivery, isInspection: bool)
    ensures Only(prefix + [d], isInspection)
         == Only(prefix, isInspection) + if d.scan.isInspection == isInspection then [d] else []
  {
    assert (prefix + [d])[..|prefix|] == prefix;
  }

  lemma {:induction false} OnlySplits(ds: seq<Delivery>)
    ensures multiset(Only(ds, true)) + multiset(Only(ds, false)) == multiset(ds)
  {
    if ds != [] {
      var prefix, d := ds[..|ds| - 1], ds[|ds| - 1];
      assert ds == prefix + [d];
      OnlySplits(prefix);
      OnlyPush(prefix, d, true);
      OnlyPush(prefix, d, false);
      assert multiset(ds) == multiset(prefix) + multiset{d};
    }
  }

  lemma {:induction false} OnlyUnhidden(ds: seq<Delivery>, p: Presented)
    ensures Unhidden(Only(ds, false), p)
    ensures Unhidden(Only(ds, true), p) <==> !Contested(Complete(ds), p)
  {
    forall d ensures d in Only(ds, false) <==> d in ds && !d.scan.isInspection {
      InOnly(ds, false, d);
    }
    forall d ensures d in Only(ds, true) <==> d in ds && d.scan.isInspection {
      InOnly(ds, true, d);
    }
    if Contested(Complete(ds), p) {
      var d :| d in ds && !d.torn && d.scan == p.(isInspection := true);
      assert d in Only(ds, true) && Hides(d, p);
    } else {
      forall d | d in Only(ds, true) ensures !Hides(d, p) {
        assert !d.torn ==> d.scan in Complete(ds);
      }
    }
  }

  lemma {:induction false} OnlyApplies(ds: seq<Delivery>, p: Presented)
    requires !p.isInspection
    ensures Applies(Only(ds, false), p) <==> p in Scans(ds)
    ensures !Applies(Only(ds, true), p)
  {
    OnlyUnhidden(ds, p);
    if p in Scans(ds) {
      var d :| d in ds && d.scan == p;
      InOnly(ds, false, d);
      var i :| 0 <= i < |Only(ds, false)| && Only(ds, false)[i] == d;
      FirstApplies(Only(ds, false), i, p);
    }
    forall i | 0 <= i < |Only(ds, false)| ensures Only(ds, false)[i].scan in Scans(ds) {
      InOnly(ds, false, Only(ds, false)[i]);
    }
    forall i | 0 <= i < |Only(ds, true)| ensures Only(ds, true)[i].scan != p {
      InOnly(ds, true, Only(ds, true)[i]);
    }
  }

  /** Boarding scans first: all of them apply. */
  lemma {:induction false} BoardingFirst(db: Db, ds: seq<Delivery>, t: TicketId)
    ensures AppliedTimes(db, Only(ds, false) + Only(ds, true), t) == BoardingTimes(db, ds, t)
  {
    var early := Only(ds, false) + Only(ds, true);
    OnlyPermutes(ds);
    forall d | d in ds && !d.scan.isInspection ensures Applies(early, d.scan) {
      AppliesConcat(Only(ds, false), Only(ds, true), d.scan);
      OnlyApplies(ds, d.scan);
    }
  }

  lemma {:induction false} OnlyPermutes(ds: seq<Delivery>)
    ensures forall d :: d in ds <==> d in Only(ds, false) + Only(ds, true)
    ensures forall d :: d in ds <==> d in Only(ds, true) + Only(ds, false)
  {
    forall d ensures d in ds <==> d in Only(ds, false) || d in Only(ds, true) {
      InOnly(ds, false, d);
      InOnly(ds, true, d);
    }
  }

  /** Inspections first: the uncontested boarding scans apply. */
  lemma {:induction false} InspectionsFirst(db: Db, ds: seq<Delivery>, t: TicketId)
    ensures AppliedTimes(db, Only(ds, true) + Only(ds, false), t) == SureTimes(db, Complete(ds), ds, t)
  {
    var late := Only(ds, true) + Only(ds, false);
    OnlyPermutes(ds);
    forall d | d in ds && !d.scan.isInspection
      ensures Applies(late, d.scan) <==> !Contested(Complete(ds), d.scan)
    {
      AppliesConcat(Only(ds, true), Only(ds, false), d.scan);
      OnlyApplies(ds, d.scan);
      OnlyUnhidden(ds, d.scan);
    }
  }

  /** A row that settles on all boarding times and on the certain ones alike precedes them all. */
  lemma {:induction false} SettlingBothWays(before: Ticket, sure: set<int>, all: set<int>, row: Ticket, x: int)
    requires sure <= all && Settles(before, sure, row) && Settles(before, all, row) && x in all
    ensures Preceded(x, UseTimes(before, sure))
  {
    assert row.usedAt.value <= x;
    assert row.usedAt.value in UseTimes(before, sure);
  }

  // ---- The exact condition ----

  predicate SameTickets(db: Db, a: seq<Delivery>, b: seq<Delivery>) {
    DeliverAll(db, a).tickets == DeliverAll(db, b).tickets
  }

  /** All orders of the deliveries end with the same tickets. */
  ghost predicate OrderFree(db: Db, ds: seq<Delivery>) {
    forall a | multiset(a) == multiset(ds) :: SameTickets(db, a, ds)
  }

  lemma {:induction false} OrderFreeIsDecided(db: Db, ds: seq<Delivery>)
    requires RefundsHaveWallets(db) && OrderFree(db, ds)
    ensures Decided(db, Complete(ds), ds)
  {
    var early, late := Only(ds, false) + Only(ds, true), Only(ds, true) + Only(ds, false);
    OnlySplits(ds);
    assert SameTickets(db, early, ds) && SameTickets(db, late, ds);
    RunConverges(db, early);
    RunConverges(db, late);
    forall t, x | t in db.tickets && x in BoardingTimes(db, ds, t)
      ensures Preceded(x, UseTimes(db.tickets[t], SureTimes(db, Complete(ds), ds, t)))
    {
      BoardingFirst(db, ds, t);
      InspectionsFirst(db, ds, t);
      SettlingBothWays(db.tickets[t], SureTimes(db, Complete(ds), ds, t), BoardingTimes(db, ds, t),
                       DeliverAll(db, early).tickets[t], x);
    }
  }

  /**
   The order of deliveries, torn ones among them, makes no difference to the tickets iff every contest
   is decided; and then it makes none to the balances either.
   */
  lemma {:induction false} OrderFreeIff(db: Db, ds: seq<Delivery>)
    requires RefundsHaveWallets(db)
    ensures OrderFree(db, ds) <==> Decided(db, Complete(ds), ds)
    ensures OrderFree(db, ds) ==> forall a | multiset(a) == multiset(ds) :: SameOutcome(db, ds, a)
  {
    if OrderFree(db, ds) {
      OrderFreeIsDecided(db, ds);
    }
    if Decided(db, Complete(ds), ds) {
      forall a | multiset(a) == multiset(ds) ensures SameTickets(db, a, ds) && SameOutcome(db, ds, a) {
        PermutationsConverge(db, ds, a);
      }
    }
  }

  /** All deliveries of the same scans, however often and however torn, end with the same tickets. */
  ghost predicate DeliveryFree(db: Db, ds: seq<Delivery>) {
    forall a | Scans(a) == Scans(ds) :: SameTickets(db, a, ds)
  }

  function Mended(ds: seq<Delivery>): seq<Delivery> {
    seq(|ds|, i requires 0 <= i < |ds| => ds[i].(torn := false))
  }

  lemma {:induction false} MendedScans(ds: seq<Delivery>)
    ensures Scans(Mended(ds)) == Scans(ds) == Complete(Mended(ds))
  {
    forall p | p in Scans(ds) ensures p in Complete(Mended(ds)) {
      var i :| 0 <= i < |ds| && ds[i].scan == p;
      assert Mended(ds)[i] in Mended(ds);
    }
    forall p | p in Scans(Mended(ds)) ensures p in Scans(ds) {
      var i :| 0 <= i < |ds| && Mended(ds)[i].scan == p;
      assert ds[i] in ds;
    }
  }

  /** Repetition and crashes add nothing to the condition but that any inspection may be logged. */
  lemma {:induction false} DeliveryFreeIff(db: Db, ds: seq<Delivery>)
    requires RefundsHaveWallets(db)
    ensures DeliveryFree(db, ds) <==> Decided(db, Scans(ds), ds)
    ensures DeliveryFree(db, ds) ==> forall a | Scans(a) == Scans(ds) :: SameOutcome(db, ds, a)
  {
    if DeliveryFree(db, ds) {
      var clean := Mended(ds);
      MendedScans(ds);
      forall a | multiset(a) == multiset(clean) ensures SameTickets(db, a, clean) {
        PermutedScans(a, clean);
        assert SameTickets(db, a, ds) && SameTickets(db, clean, ds);
      }
      OrderFreeIsDecided(db, clean);
      DecidedByScans(db, Scans(ds), clean, ds);
    }
    if Decided(db, Scans(ds), ds) {
      forall a | Scans(a) == Scans(ds) ensures SameTickets(db, a, ds) && SameOutcome(db, ds, a) {
        OnlyTheSetMatters(db, ds, a);
      }
    }
  }

  // ---- One pair ----

  lemma {:induction false} DeliverTwo(db: Db, a: Delivery, b: Delivery)
    ensures DeliverAll(db, [a, b]) == Deliver(Deliver(db, a), b)
  {
    DeliverPush(db, [], a);
    DeliverPush(db, [] + [a], b);
    assert [] + [a] + [b] == [a, b];
  }

  /** The row already records a use that is no later than `at`. */
  predicate UsedBy(row: Ticket, at: int) {
    row.status == Used && row.usedAt.Some? && row.usedAt.value <= at
  }

  lemma {:induction false} BoardingWritesIff(db: Db, d: Delivery)
    requires RefundsHaveWallets(db) && !d.scan.isInspection
    ensures Deliver(db, d).tickets != db.tickets
       <==> Boards(db, d.scan, d.scan.ticket) && !UsedBy(db.tickets[d.scan.ticket], d.scan.scannedAt)
  {
    DeliverEffect(db, d);
    if d.scan.ticket in db.tickets {
      var row := db.tickets[d.scan.ticket];
      assert db.tickets[d.scan.ticket := row] == db.tickets;
      JudgeWritesIff(row, d.scan.scannedAt);
      assert Deliver(db, d).tickets != db.tickets <==>
        Deliver(db, d).tickets[d.scan.ticket] != row;
    }
  }

  lemma {:induction false} JudgeWritesIff(row: Ticket, at: int)
    ensures RowAfter(row, at, Judge(row, at, false).write) != row <==> at <= row.expiresAt && !UsedBy(row, at)
  {
  }

  /** The boarding scan is hidden by the inspection that was logged before it. */
  lemma {:induction false} HiddenBoarding(db: Db, inspection: Delivery, boarding: Delivery)
    requires Twins(boarding.scan, inspection.scan) && inspection.scan.isInspection
    requires !inspection.torn && RefundsHaveWallets(db)
    ensures Deliver(Deliver(db, inspection), boarding).tickets == db.tickets
  {
    var second := Deliver(db, inspection);
    DeliverEffect(db, inspection);
    DeliverEffect(second, boarding);
    if boarding.scan.ticket in db.tickets {
      DeliverLogs(db, inspection);
      LoggedTwins(second.events, boarding.scan, inspection.scan);
    }
  }

  lemma {:induction false} InspectionWritesNothing(db: Db, inspection: Delivery)
    requires inspection.scan.isInspection
    ensures Deliver(db, inspection).tickets == db.tickets
  {
    DeliverEffect(db, inspection);
  }

  /**
   A boarding scan and an inspection by one driver at one instant end differently in their two orders
   iff the boarding scan is fresh and in time and the ticket was not recorded as used by then.
   */
  lemma {:induction false} PairDivergesIff(db: Db, boarding: Delivery, inspection: Delivery)
    requires Twins(boarding.scan, inspection.scan) && !boarding.scan.isInspection && inspection.scan.isInspection
    requires !inspection.torn && RefundsHaveWallets(db)
    ensures !SameTickets(db, [boarding, inspection], [inspection, boarding])
       <==> Boards(db, boarding.scan, boarding.scan.ticket)
            && !UsedBy(db.tickets[boarding.scan.ticket], boarding.scan.scannedAt)
  {
    DeliverTwo(db, boarding, inspection);
    DeliverTwo(db, inspection, boarding);
    InspectionWritesNothing(Deliver(db, boarding), inspection);
    HiddenBoarding(db, inspection, boarding);
    BoardingWritesIff(db, boarding);
  }
}
