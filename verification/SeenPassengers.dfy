/** The passenger list of a trip marks a scan whose passenger was already seen on that trip. */
module SeenPassengers {
  import opened Store

  type ScanId(==, !new)

  /** One scan of the trip, in the order of its scan time. */
  datatype Scan = Scan(id: ScanId, passenger: UserId)

  /** The quadratic definition: an earlier scan in the list has the same passenger. */
  predicate SeenEarlier(scans: seq<Scan>, i: nat)
    requires i < |scans|
  {
    exists j | 0 <= j < i :: scans[j].passenger == scans[i].passenger
  }

  predicate UniqueIds(scans: seq<Scan>) {
    forall i, j | 0 <= i < j < |scans| :: scans[i].id != scans[j].id
  }

  function Passengers(scans: seq<Scan>): set<UserId> {
    set i | 0 <= i < |scans| :: scans[i].passenger
  }

  function FirstSightings(scans: seq<Scan>): set<int> {
    set i | 0 <= i < |scans| && !SeenEarlier(scans, i)
  }

  method MarkSeen(scans: seq<Scan>) returns (scanOrder: map<ScanId, bool>)
    requires UniqueIds(scans)
    ensures scanOrder.Keys == set i | 0 <= i < |scans| :: scans[i].id
    ensures forall i | 0 <= i < |scans| :: scanOrder[scans[i].id] == SeenEarlier(scans, i)
  {
    scanOrder := map[];
    var seenBefore: map<UserId, bool> := map[];
    for n := 0 to |scans|
      invariant scanOrder.Keys == set i | 0 <= i < n :: scans[i].id
      invariant forall u :: u in seenBefore <==> exists j | 0 <= j < n :: scans[j].passenger == u
      invariant forall i | 0 <= i < n :: scanOrder[scans[i].id] == SeenEarlier(scans, i)
    {
      var pid := scans[n].passenger;
      scanOrder := scanOrder[scans[n].id := pid in seenBefore];
      seenBefore := seenBefore[pid := true];
    }
  }

  /** The last scan adds itself to the first sightings exactly when it brings a new passenger. */
  lemma {:induction false} LastSighting(scans: seq<Scan>, before: seq<Scan>, n: nat)
    requires |scans| == n + 1 && before == scans[..n]
    ensures FirstSightings(scans) == FirstSightings(before) + if SeenEarlier(scans, n) then {} else {n}
    ensures Passengers(scans) == Passengers(before) + {scans[n].passenger}
    ensures scans[n].passenger in Passengers(before) <==> SeenEarlier(scans, n)
  {
    assert forall i | 0 <= i < n :: SeenEarlier(scans, i) == SeenEarlier(before, i);
  }

  /** The number of unmarked scans is the number of distinct passengers. */
  lemma {:induction false} UnmarkedCountPassengers(scans: seq<Scan>)
    ensures |FirstSightings(scans)| == |Passengers(scans)|
  {
    if scans != [] {
      var n := |scans| - 1;
      UnmarkedCountPassengers(scans[..n]);
      LastSighting(scans, scans[..n], n);
    }
  }
}
