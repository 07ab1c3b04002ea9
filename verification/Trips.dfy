/**
 Driver trips.  A scan is attributed to a trip by an unordered "first match" over closed time
 intervals; the theorems here say when that match is the only one.
 */
module Trips {
  import opened Wrappers
  import opened Store

  datatype TripError = TripNotFound | WrongStatus | AlreadyInProgress

  type Table = map<TripId, Trip>

  predicate ActiveFor(trips: Table, driver: UserId, id: TripId) {
    id in trips && trips[id].driver == driver && trips[id].status == InProgress
  }

  function Started(trips: Table, driver: UserId, id: TripId, now: int): Result<Table, TripError> {
    if id !in trips || trips[id].driver != driver then Failure(TripNotFound)
    else if trips[id].status != Scheduled then Failure(WrongStatus)
    else if exists other | other in trips :: ActiveFor(trips, driver, other) then Failure(AlreadyInProgress)
    else Success(trips[id := trips[id].(status := InProgress, startedAt := Some(now))])
  }

  function Ended(trips: Table, driver: UserId, id: TripId, now: int): Result<Table, TripError> {
    if id !in trips || trips[id].driver != driver then Failure(TripNotFound)
    else if trips[id].status != InProgress then Failure(WrongStatus)
    else Success(trips[id := trips[id].(status := Done, endedAt := Some(now))])
  }

  function CancelledTrip(trips: Table, id: TripId): Result<Table, TripError> {
    if id !in trips then Failure(TripNotFound)
    else if trips[id].status != Scheduled then Failure(WrongStatus)
    else Success(trips[id := trips[id].(status := Cancelled)])
  }

  /** The filter of the trip lookup for an offline scan. */
  predicate Candidate(trips: Table, driver: UserId, at: int, id: TripId) {
    && id in trips
    && trips[id].driver == driver
    && trips[id].startedAt.Some? && trips[id].startedAt.value <= at
    && (trips[id].endedAt.Some? ==> at <= trips[id].endedAt.value)
  }

  /** Any answer that the unordered lookup may give. */
  predicate ValidLookup(trips: Table, driver: UserId, at: int, found: Option<TripId>) {
    match found
    case Some(id) => Candidate(trips, driver, at, id)
    case None => forall id | id in trips :: !Candidate(trips, driver, at, id)
  }

  // ---- Runs ----

  datatype Action =
    | Create(id: TripId, driver: UserId)
    | Start(id: TripId, driver: UserId)
    | End(id: TripId, driver: UserId)
    | Cancel(id: TripId)

  function Apply(trips: Table, a: Action, now: int): Table {
    match a
    case Create(id, driver) =>
      if id in trips then trips else trips[id := Trip(driver, Scheduled, None, None)]
    case Start(id, driver) => OrSame(trips, Started(trips, driver, id, now))
    case End(id, driver) => OrSame(trips, Ended(trips, driver, id, now))
    case Cancel(id) => OrSame(trips, CancelledTrip(trips, id))
  }

  datatype Timed = Timed(action: Action, now: int)

  predicate NonDecreasing(run: seq<Timed>) {
    forall i, j | 0 <= i < j < |run| :: run[i].now <= run[j].now
  }

  predicate StrictlyIncreasing(run: seq<Timed>) {
    forall i, j | 0 <= i < j < |run| :: run[i].now < run[j].now
  }

  function Run(run: seq<Timed>): Table {
    if run == [] then map[]
    else Apply(Run(run[..|run| - 1]), run[|run| - 1].action, run[|run| - 1].now)
  }

  ghost predicate WellFormed(trip: Trip, clock: int) {
    match trip.status
    case Scheduled => trip.startedAt == None && trip.endedAt == None
    case Cancelled => trip.startedAt == None && trip.endedAt == None
    case InProgress => trip.startedAt.Some? && trip.startedAt.value <= clock && trip.endedAt == None
    case Done =>
      && trip.startedAt.Some? && trip.endedAt.Some?
      && trip.startedAt.value <= trip.endedAt.value <= clock
  }

  predicate EndsBy(a: Trip, b: Trip) {
    a.endedAt.Some? && b.startedAt.Some? && a.endedAt.value <= b.startedAt.value
  }

  /** Trips of one driver that were started follow one another; ties are possible. */
  ghost predicate Sequential(trips: Table, clock: int) {
    && (forall id | id in trips :: WellFormed(trips[id], clock))
    && forall a, b | a in trips && b in trips && a != b
                  && trips[a].driver == trips[b].driver
                  && trips[a].startedAt.Some? && trips[b].startedAt.Some? ::
         EndsBy(trips[a], trips[b]) || EndsBy(trips[b], trips[a])
  }

  ghost predicate NoTies(trips: Table) {
    forall a, b | a in trips && b in trips && a != b && trips[a].driver == trips[b].driver
               && trips[a].endedAt.Some? && trips[b].startedAt.Some? ::
      trips[a].endedAt.value != trips[b].startedAt.value
  }

  lemma {:induction false} PutSequential(trips: Table, id: TripId, trip: Trip, clock: int, now: int)
    requires Sequential(trips, clock) && clock <= now && WellFormed(trip, now)
    requires forall o | o in trips && o != id && trips[o].driver == trip.driver
                     && trips[o].startedAt.Some? && trip.startedAt.Some? :: EndsBy(trips[o], trip)
    ensures Sequential(trips[id := trip], now)
  {
  }

  lemma {:induction false} ApplySequential(trips: Table, a: Action, clock: int, now: int)
    requires Sequential(trips, clock) && clock <= now
    ensures Sequential(Apply(trips, a, now), now)
  {
    var after := Apply(trips, a, now);
    if after != trips {
      PutSequential(trips, a.id, after[a.id], clock, now);
    }
  }

  lemma {:induction false} ApplyNoTies(trips: Table, a: Action, clock: int, now: int)
    requires Sequential(trips, clock) && clock < now && NoTies(trips)
    ensures NoTies(Apply(trips, a, now))
  {
    var after := Apply(trips, a, now);
    forall x, y | x in after && y in after && x != y && after[x].driver == after[y].driver
               && after[x].endedAt.Some? && after[y].startedAt.Some?
      ensures after[x].endedAt.value != after[y].startedAt.value
    {
      assert x != a.id ==> x in trips && after[x] == trips[x] && WellFormed(trips[x], clock);
      assert y != a.id ==> y in trips && after[y] == trips[y] && WellFormed(trips[y], clock);
    }
  }

  lemma {:induction false} RunSequential(run: seq<Timed>, now: int)
    requires NonDecreasing(run) && forall i | 0 <= i < |run| :: run[i].now <= now
    ensures Sequential(Run(run), now)
    ensures StrictlyIncreasing(run) ==> NoTies(Run(run))
  {
    if run != [] {
      var n := |run| - 1;
      var clock := if n == 0 then run[0].now - 1 else run[n - 1].now;
      RunSequential(run[..n], clock);
      ApplySequential(Run(run[..n]), run[n].action, clock, run[n].now);
      if StrictlyIncreasing(run) {
        ApplyNoTies(Run(run[..n]), run[n].action, clock, run[n].now);
      }
    }
  }

  predicate Tie(a: Trip, b: Trip, at: int) {
    a.endedAt == Some(at) && b.startedAt == Some(at)
  }

  /**
   Two trips compete for a scan exactly when it was taken at the very instant at which the driver
   ended one of them and had the other one started.
   */
  lemma {:induction false} AmbiguousIffTie(run: seq<Timed>, driver: UserId, at: int, a: TripId, b: TripId)
    requires NonDecreasing(run)
    requires a in Run(run) && b in Run(run) && a != b
    requires Run(run)[a].driver == Run(run)[b].driver == driver
    ensures (Candidate(Run(run), driver, at, a) && Candidate(Run(run), driver, at, b))
       <==> (Tie(Run(run)[a], Run(run)[b], at) || Tie(Run(run)[b], Run(run)[a], at))
  {
    RunSequential(run, if run == [] then 0 else run[|run| - 1].now);
  }

  /** Under a strictly increasing clock the lookup has at most one answer. */
  lemma {:induction false} LookupUnambiguous(run: seq<Timed>, driver: UserId, at: int, x: Option<TripId>, y: Option<TripId>)
    requires StrictlyIncreasing(run)
    requires ValidLookup(Run(run), driver, at, x) && ValidLookup(Run(run), driver, at, y)
    ensures x == y
  {
    RunSequential(run, if run == [] then 0 else run[|run| - 1].now);
  }

  /** A driver never has two trips in progress, so the active-trip lookup is unambiguous as well. */
  lemma {:induction false} OneActiveTrip(run: seq<Timed>, driver: UserId, a: TripId, b: TripId)
    requires NonDecreasing(run)
    requires ActiveFor(Run(run), driver, a) && ActiveFor(Run(run), driver, b)
    ensures a == b
  {
    RunSequential(run, if run == [] then 0 else run[|run| - 1].now);
  }

  // ---- The service ----

  method GetActiveTrip(db: Database, driver: UserId) returns (found: Option<TripId>)
    ensures found.Some? ==> ActiveFor(db.trips, driver, found.value)
    ensures found.None? ==> forall id | id in db.trips :: !ActiveFor(db.trips, driver, id)
  {
    var rest := db.trips.Keys;
    while rest != {}
      invariant rest <= db.trips.Keys
      invariant forall id | id in db.trips && id !in rest :: !ActiveFor(db.trips, driver, id)
      decreases rest
    {
      var id :| id in rest;
      if db.trips[id].driver == driver && db.trips[id].status == InProgress {
        return Some(id);
      }
      rest := rest - {id};
    }
    found := None;
  }

  method ResolveTripId(db: Database, driver: UserId, at: int) returns (found: Option<TripId>)
    ensures ValidLookup(db.trips, driver, at, found)
  {
    var rest := db.trips.Keys;
    while rest != {}
      invariant rest <= db.trips.Keys
      invariant forall id | id in db.trips && id !in rest :: !Candidate(db.trips, driver, at, id)
      decreases rest
    {
      var id :| id in rest;
      if Candidate(db.trips, driver, at, id) {
        return Some(id);
      }
      rest := rest - {id};
    }
    found := None;
  }

  method StartTrip(db: Database, driver: UserId, id: TripId, now: int) returns (r: Result<(), TripError>)
    modifies db`trips
    ensures var want := Started(old(db.trips), driver, id, now);
            && (want.Success? ==> r.Success? && db.trips == want.value)
            && (want.Failure? ==> r == Failure(want.error) && db.trips == old(db.trips))
  {
    if id !in db.trips || db.trips[id].driver != driver {
      return Failure(TripNotFound);
    }
    if db.trips[id].status != Scheduled {
      return Failure(WrongStatus);
    }
    var active := GetActiveTrip(db, driver);
    if active.Some? {
      return Failure(AlreadyInProgress);
    }
    db.trips := db.trips[id := db.trips[id].(status := InProgress, startedAt := Some(now))];
    r := Success(());
  }

  method EndTrip(db: Database, driver: UserId, id: TripId, now: int) returns (r: Result<(), TripError>)
    modifies db`trips
    ensures var want := Ended(old(db.trips), driver, id, now);
            && (want.Success? ==> r.Success? && db.trips == want.value)
            && (want.Failure? ==> r == Failure(want.error) && db.trips == old(db.trips))
  {
    if id !in db.trips || db.trips[id].driver != driver {
      return Failure(TripNotFound);
    }
    if db.trips[id].status != InProgress {
      return Failure(WrongStatus);
    }
    db.trips := db.trips[id := db.trips[id].(status := Done, endedAt := Some(now))];
    r := Success(());
  }

  method CancelTrip(db: Database, id: TripId) returns (r: Result<(), TripError>)
    modifies db`trips
    ensures var want := CancelledTrip(old(db.trips), id);
            && (want.Success? ==> r.Success? && db.trips == want.value)
            && (want.Failure? ==> r == Failure(want.error) && db.trips == old(db.trips))
  {
    if id !in db.trips {
      return Failure(TripNotFound);
    }
    if db.trips[id].status != Scheduled {
      return Failure(WrongStatus);
    }
    db.trips := db.trips[id := db.trips[id].(status := Cancelled)];
    r := Success(());
  }
}
