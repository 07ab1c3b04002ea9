/** Trips told from the columns: when each operation goes through, and which trips can never move again. */
module TripEffects {
  import opened Wrappers
  import opened Store
  import opened Trips

  /** A trip is started iff it is the driver's, SCHEDULED, and no other trip of the driver is in progress. */
  lemma {:induction false} StartEffect(trips: Table, driver: UserId, id: TripId, now: int)
    ensures var r := Started(trips, driver, id, now);
            && (r.Success? <==>
                  && id in trips && trips[id].driver == driver && trips[id].status == Scheduled
                  && forall x | x in trips && trips[x].driver == driver :: trips[x].status != InProgress)
            && (r.Success? ==> r.value == trips[id := trips[id].(status := InProgress, startedAt := Some(now))])
            && (r == Failure(TripNotFound) <==> id !in trips || trips[id].driver != driver)
  {
    if id in trips && trips[id].driver == driver {
      assert forall x | x in trips :: ActiveFor(trips, driver, x) <==>
        trips[x].driver == driver && trips[x].status == InProgress;
    }
  }

  /** It is ended iff it is the driver's and in progress. */
  lemma {:induction false} EndEffect(trips: Table, driver: UserId, id: TripId, now: int)
    ensures var r := Ended(trips, driver, id, now);
            && (r.Success? <==> id in trips && trips[id].driver == driver && trips[id].status == InProgress)
            && (r.Success? ==> r.value == trips[id := trips[id].(status := TripStatus.Done, endedAt := Some(now))])
  {
  }

  /** It is cancelled iff it is SCHEDULED. */
  lemma {:induction false} CancelEffect(trips: Table, id: TripId)
    ensures var r := CancelledTrip(trips, id);
            && (r.Success? <==> id in trips && trips[id].status == Scheduled)
            && (r.Success? ==> r.value == trips[id := trips[id].(status := Cancelled)])
  {
  }

  /** A cancelled trip can be neither started nor ended nor cancelled again. */
  lemma {:induction false} CancelledIsOver(trips: Table, id: TripId, driver: UserId, now: int)
    requires CancelledTrip(trips, id).Success?
    ensures var after := CancelledTrip(trips, id).value;
            && Started(after, driver, id, now).Failure? && Ended(after, driver, id, now).Failure?
            && CancelledTrip(after, id).Failure?
  {
  }

  function From(trips: Table, run: seq<Timed>): Table {
    if run == [] then trips else Apply(From(trips, run[..|run| - 1]), run[|run| - 1].action, run[|run| - 1].now)
  }

  /** After its cancellation, whatever happens, a trip is never started; a trip that has ended stays as it is. */
  lemma {:induction false} OverForGood(trips: Table, run: seq<Timed>, id: TripId)
    requires id in trips && (trips[id].status == Cancelled || trips[id].status == TripStatus.Done)
    ensures id in From(trips, run) && From(trips, run)[id] == trips[id]
  {
    if run != [] {
      OverForGood(trips, run[..|run| - 1], id);
    }
  }

  /** The trip covers the time: it has started by then, and not ended before. */
  predicate Covers(trip: Trip, at: int) {
    && trip.startedAt.Some? && trip.startedAt.value <= at
    && (trip.endedAt == None || at <= trip.endedAt.value)
  }

  /** The lookup for a scan finds a trip of the driver that covers its time, iff there is one. */
  lemma {:induction false} LookupFindsCover(trips: Table, driver: UserId, at: int, found: Option<TripId>)
    requires ValidLookup(trips, driver, at, found)
    ensures found.Some? ==> found.value in trips && trips[found.value].driver == driver && Covers(trips[found.value], at)
    ensures found.Some? <==> exists id | id in trips :: trips[id].driver == driver && Covers(trips[id], at)
  {
    if id :| id in trips && trips[id].driver == driver && Covers(trips[id], at) {
      assert Candidate(trips, driver, at, id);
    }
  }

  /** In every run under a strictly increasing clock, a scan during a trip in progress belongs to that trip. */
  lemma {:induction false} ScanBelongsToTrip(run: seq<Timed>, driver: UserId, id: TripId, at: int, found: Option<TripId>)
    requires StrictlyIncreasing(run) && ActiveFor(Run(run), driver, id)
    requires Run(run)[id].startedAt.Some? && Run(run)[id].startedAt.value <= at
    requires ValidLookup(Run(run), driver, at, found)
    ensures found == Some(id)
  {
    RunSequential(run, if run == [] then 0 else run[|run| - 1].now);
    assert Candidate(Run(run), driver, at, id);
    LookupUnambiguous(run, driver, at, found, Some(id));
  }
}
