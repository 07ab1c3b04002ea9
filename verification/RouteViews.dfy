/** What a route is shown with, told from its stops and segments. */
module RouteViews {
  import opened Wrappers
  import opened Routes

  /** What the transformation shows for the stops of `route`. */
  predicate Shown(route: Route, views: seq<StopView>) {
    && |views| == |route.stops|
    && forall i | 0 <= i < |views| :: views[i] == View(Legs(route.segments), Sort(route.stops, BySequence())[i])
  }

  function ShownStops(views: seq<StopView>): seq<Stop> {
    seq(|views|, i requires 0 <= i < |views| => Stop(views[i].id, views[i].sequence))
  }

  /** The views show exactly the stops of the route, each with its own id and number; in order 1 to n if numbered. */
  lemma {:induction false} ShowsTheStops(route: Route, views: seq<StopView>)
    requires Shown(route, views)
    ensures multiset(ShownStops(views)) == multiset(route.stops)
    ensures forall i, j | 0 <= i < j < |views| :: views[i].sequence <= views[j].sequence
    ensures Numbered(route.stops) ==> forall i | 0 <= i < |views| :: views[i].sequence == i + 1
  {
    var sorted := Sort(route.stops, BySequence());
    assert ShownStops(views) == sorted;
    forall i, j | 0 <= i < j < |views| ensures views[i].sequence <= views[j].sequence {
      assert BySequence()(sorted[i]) <= BySequence()(sorted[j]);
    }
    if Numbered(route.stops) {
      SortedNumbers(route.stops);
    }
  }

  /** Segment `j` is the last one from stop `k` to stop `k + 1`. */
  predicate LastSegmentAt(segments: seq<Segment>, k: int, j: nat) {
    && j < |segments| && segments[j].from == k && segments[j].to == k + 1
    && forall i | j < i < |segments| :: !(segments[i].from == k && segments[i].to == k + 1)
  }

  predicate HasSegmentAt(segments: seq<Segment>, k: int) {
    exists j | 0 <= j < |segments| :: segments[j].from == k && segments[j].to == k + 1
  }

  lemma {:induction false} LegIsLastSegment(segments: seq<Segment>, k: int)
    ensures k in Legs(segments) <==> HasSegmentAt(segments, k)
    ensures forall j: nat | LastSegmentAt(segments, k, j) ::
      k in Legs(segments) && Legs(segments)[k] == Leg(segments[j].distance, segments[j].duration)
  {
    if segments != [] {
      var n := |segments| - 1;
      var before, s := segments[..n], segments[n];
      LegIsLastSegment(before, k);
      if j :| 0 <= j < |before| && before[j].from == k && before[j].to == k + 1 {
        assert segments[j] == before[j];
      }
      if j :| 0 <= j < |segments| && segments[j].from == k && segments[j].to == k + 1 && j < n {
        assert before[j] == segments[j];
      }
      forall j: nat | LastSegmentAt(segments, k, j)
        ensures k in Legs(segments) && Legs(segments)[k] == Leg(segments[j].distance, segments[j].duration)
      {
        if j < n {
          assert LastSegmentAt(before, k, j);
          assert !(s.from == k && s.to == k + 1);
        }
      }
    }
  }

  /**
   What a stop shows towards the next one is the last segment from it to the number after its own; what it
   shows from the previous one is the last segment that arrives from the number before.
   */
  lemma {:induction false} ShowsItsSegments(route: Route, views: seq<StopView>, i: nat, j: nat)
    requires Shown(route, views) && i < |views|
    ensures LastSegmentAt(route.segments, views[i].sequence, j) ==>
      views[i].distanceToNext == Some(route.segments[j].distance)
      && views[i].durationToNext == Some(route.segments[j].duration)
    ensures LastSegmentAt(route.segments, views[i].sequence - 1, j) ==>
      views[i].distanceFromPrevious == Some(route.segments[j].distance)
      && views[i].durationFromPrevious == Some(route.segments[j].duration)
    ensures !HasSegmentAt(route.segments, views[i].sequence) ==>
      views[i].distanceToNext == None && views[i].durationToNext == None
    ensures !HasSegmentAt(route.segments, views[i].sequence - 1) ==>
      views[i].distanceFromPrevious == None && views[i].durationFromPrevious == None
  {
    LegIsLastSegment(route.segments, views[i].sequence);
    LegIsLastSegment(route.segments, views[i].sequence - 1);
  }

  /** On an accepted route neighbouring stops agree on the leg between them, and nothing lies beyond the ends. */
  lemma {:induction false} NeighboursAgree(route: Route, views: seq<StopView>, i: nat)
    requires Shown(route, views) && Numbered(route.stops) && i < |views|
    requires forall k | 0 <= k < |route.segments| ::
      1 <= route.segments[k].from && route.segments[k].to <= |route.stops|
    ensures i + 1 < |views| ==>
      && views[i].distanceToNext == views[i + 1].distanceFromPrevious
      && views[i].durationToNext == views[i + 1].durationFromPrevious
    ensures i == 0 ==> views[i].distanceFromPrevious == None && views[i].durationFromPrevious == None
    ensures i == |views| - 1 ==> views[i].distanceToNext == None && views[i].durationToNext == None
  {
    ShowsTheStops(route, views);
    LegsWithin(route.segments, |route.stops|);
  }
}
