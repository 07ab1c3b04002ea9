/** Bus routes: which stop lists are accepted, and the distances that a route is shown with. */
module Routes {
  import opened Wrappers
  import opened Totals

  datatype Stop = Stop(id: string, sequence: int)

  /** A stored segment, with the sequence numbers of the stops it joins. */
  datatype Segment = Segment(from: int, to: int, distance: int, duration: int)

  datatype Route = Route(
    stops: seq<Stop>,
    segments: seq<Segment>,
    estimatedDistance: Option<int>,
    estimatedDuration: Option<int>)

  datatype Leg = Leg(distance: int, duration: int)

  datatype StopView = StopView(
    id: string,
    sequence: int,
    distanceFromPrevious: Option<int>,
    distanceToNext: Option<int>,
    durationFromPrevious: Option<int>,
    durationToNext: Option<int>)

  // ---- Sorting ----

  predicate Ordered<T>(s: seq<T>, key: T -> int) {
    forall i, j | 0 <= i < j < |s| :: key(s[i]) <= key(s[j])
  }

  function Insert<T>(s: seq<T>, x: T, key: T -> int): (r: seq<T>)
    requires Ordered(s, key)
    ensures multiset(r) == multiset(s) + multiset{x}
    ensures |r| == |s| + 1 && Ordered(r, key)
  {
    if s == [] || key(s[|s| - 1]) <= key(x) then s + [x]
    else
      var last := s[|s| - 1];
      var rest := s[..|s| - 1];
      assert s == rest + [last];
      var inserted := Insert(rest, x, key);
      InsertBounded(rest, x, inserted, last, key);
      inserted + [last]
  }

  lemma {:induction false} InsertBounded<T>(rest: seq<T>, x: T, inserted: seq<T>, last: T, key: T -> int)
    requires multiset(inserted) == multiset(rest) + multiset{x}
    requires key(x) <= key(last) && forall i | 0 <= i < |rest| :: key(rest[i]) <= key(last)
    ensures forall i | 0 <= i < |inserted| :: key(inserted[i]) <= key(last)
  {
    forall i | 0 <= i < |inserted| ensures key(inserted[i]) <= key(last) {
      assert inserted[i] in multiset(inserted);
      assert inserted[i] == x || inserted[i] in rest;
    }
  }

  function Sort<T>(s: seq<T>, key: T -> int): (r: seq<T>)
    ensures multiset(r) == multiset(s)
    ensures |r| == |s| && Ordered(r, key)
  {
    if s == [] then []
    else
      assert s == s[..|s| - 1] + [s[|s| - 1]];
      Insert(Sort(s[..|s| - 1], key), s[|s| - 1], key)
  }

  // ---- Stop lists ----

  function Sequences(stops: seq<Stop>): seq<int> {
    seq(|stops|, i requires 0 <= i < |stops| => stops[i].sequence)
  }

  function UpTo(n: nat): seq<int> {
    seq(n, i => i + 1)
  }

  function Itself(): int -> int {
    (x: int) => x
  }

  function BySequence(): Stop -> int {
    (s: Stop) => s.sequence
  }

  /** The stops are numbered 1, 2, ... in some order. */
  predicate Numbered(stops: seq<Stop>) {
    multiset(Sequences(stops)) == multiset(UpTo(|stops|))
  }

  lemma {:induction false} LastIsGreatest(a: seq<int>, x: int)
    requires a != [] && Ordered(a, Itself()) && x in multiset(a)
    ensures x <= a[|a| - 1]
  {
    var i :| 0 <= i < |a| && a[i] == x;
    if i < |a| - 1 {
      assert Itself()(a[i]) <= Itself()(a[|a| - 1]);
    }
  }

  lemma {:induction false} DropLast(a: seq<int>)
    requires a != [] && Ordered(a, Itself())
    ensures Ordered(a[..|a| - 1], Itself())
    ensures multiset(a[..|a| - 1]) == multiset(a) - multiset{a[|a| - 1]}
  {
    assert a == a[..|a| - 1] + [a[|a| - 1]];
  }

  lemma {:induction false} SameLast(a: seq<int>, b: seq<int>)
    requires a != [] && b != [] && Ordered(a, Itself()) && Ordered(b, Itself()) && multiset(a) == multiset(b)
    ensures a[|a| - 1] == b[|b| - 1]
  {
    assert a[|a| - 1] in multiset(a) && b[|b| - 1] in multiset(b);
    LastIsGreatest(a, b[|b| - 1]);
    LastIsGreatest(b, a[|a| - 1]);
  }

  lemma {:induction false} OrderedUnique(a: seq<int>, b: seq<int>)
    requires |a| == |b| && Ordered(a, Itself()) && Ordered(b, Itself()) && multiset(a) == multiset(b)
    ensures a == b
  {
    if a != [] {
      var n := |a| - 1;
      SameLast(a, b);
      DropLast(a);
      DropLast(b);
      OrderedUnique(a[..n], b[..n]);
    }
  }

  lemma {:induction false} NumberedIffSorted(stops: seq<Stop>)
    ensures Numbered(stops) <==> Sort(Sequences(stops), Itself()) == UpTo(|stops|)
  {
    if Numbered(stops) {
      OrderedUnique(Sort(Sequences(stops), Itself()), UpTo(|stops|));
    }
  }

  method IsUpTo(sequences: seq<int>) returns (ok: bool)
    ensures ok <==> sequences == UpTo(|sequences|)
  {
    for i := 0 to |sequences|
      invariant forall j | 0 <= j < i :: sequences[j] == j + 1
    {
      if sequences[i] != i + 1 {
        assert UpTo(|sequences|)[i] == i + 1;
        return false;
      }
    }
    ok := true;
  }

  /** Accepts exactly the lists of two or more stops that are numbered from 1 without gaps. */
  method ValidateStops(stops: seq<Stop>) returns (ok: bool)
    ensures ok <==> |stops| >= 2 && Numbered(stops)
  {
    if |stops| < 2 {
      return false;
    }
    NumberedIffSorted(stops);
    ok := IsUpTo(Sort(Sequences(stops), Itself()));
  }

  method ValidateSegments(segments: seq<Segment>) returns (ok: bool)
    ensures ok <==> forall i | 0 <= i < |segments| :: segments[i].to == segments[i].from + 1
  {
    for i := 0 to |segments|
      invariant forall j | 0 <= j < i :: segments[j].to == segments[j].from + 1
    {
      if segments[i].to != segments[i].from + 1 {
        return false;
      }
    }
    ok := true;
  }

  // ---- The transformation ----

  /** Legs by the number of the stop they start from; a later segment replaces an earlier one. */
  function Legs(segments: seq<Segment>): map<int, Leg> {
    if segments == [] then map[]
    else
      var s := segments[|segments| - 1];
      var before := Legs(segments[..|segments| - 1]);
      if s.from + 1 == s.to then before[s.from := Leg(s.distance, s.duration)] else before
  }

  function Distances(legs: map<int, Leg>): map<int, int> {
    map k | k in legs :: legs[k].distance
  }

  function Durations(legs: map<int, Leg>): map<int, int> {
    map k | k in legs :: legs[k].duration
  }

  function Get(m: map<int, int>, k: int): Option<int> {
    if k in m then Some(m[k]) else None
  }

  function View(legs: map<int, Leg>, stop: Stop): StopView {
    var k := stop.sequence;
    StopView(stop.id, k,
             Get(Distances(legs), k - 1), Get(Distances(legs), k),
             Get(Durations(legs), k - 1), Get(Durations(legs), k))
  }

  method SumValues<K(==)>(m: map<K, int>) returns (sum: int)
    ensures sum == Total(m)
  {
    sum := 0;
    var rest := m.Keys;
    assert Only(m, rest) == m;
    while rest != {}
      invariant rest <= m.Keys && sum + Total(Only(m, rest)) == Total(m)
      decreases rest
    {
      var k :| k in rest;
      TotalRemove(Only(m, rest), k);
      assert Only(m, rest) - {k} == Only(m, rest - {k});
      sum := sum + m[k];
      rest := rest - {k};
    }
    assert Only(m, {}) == map[];
  }

  function Only<K(==)>(m: map<K, int>, keys: set<K>): map<K, int> {
    map k | k in m && k in keys :: m[k]
  }

  method TransformRoute(route: Route) returns (stops: seq<StopView>, distance: int, duration: int)
    ensures var legs := Legs(route.segments);
            && |stops| == |route.stops|
            && (forall i | 0 <= i < |stops| :: stops[i] == View(legs, Sort(route.stops, BySequence())[i]))
            && (legs == map[] ==>
                  && distance == (if route.estimatedDistance.Some? then route.estimatedDistance.value else 0)
                  && duration == (if route.estimatedDuration.Some? then route.estimatedDuration.value else 0))
            && (legs != map[] ==> distance == Total(Distances(legs)) && duration == Total(Durations(legs)))
  {
    var sorted := Sort(route.stops, BySequence());
    var segByFromSeq: map<int, Leg> := map[];
    for i := 0 to |route.segments|
      invariant segByFromSeq == Legs(route.segments[..i])
    {
      assert route.segments[..i + 1][..i] == route.segments[..i];
      var seg := route.segments[i];
      if seg.from + 1 == seg.to {
        segByFromSeq := segByFromSeq[seg.from := Leg(seg.distance, seg.duration)];
      }
    }
    assert route.segments[..|route.segments|] == route.segments;
    stops := seq(|sorted|, i requires 0 <= i < |sorted| => View(segByFromSeq, sorted[i]));
    if |segByFromSeq| > 0 {
      distance := SumValues(Distances(segByFromSeq));
      duration := SumValues(Durations(segByFromSeq));
    } else {
      distance := if route.estimatedDistance.Some? then route.estimatedDistance.value else 0;
      duration := if route.estimatedDuration.Some? then route.estimatedDuration.value else 0;
    }
  }

  // ---- Totals agree ----

  function OrZero(x: Option<int>): int {
    if x.Some? then x.value else 0
  }

  /** Sum of the values at `lo + 1` to `lo + n`, missing ones counting nothing. */
  function Along(m: map<int, int>, lo: int, n: nat): int {
    if n == 0 then 0 else Along(m, lo, n - 1) + OrZero(Get(m, lo + n))
  }

  lemma {:induction false} AlongIsTotal(m: map<int, int>, lo: int, n: nat)
    requires forall k | k in m :: lo < k <= lo + n
    ensures Along(m, lo, n) == Total(m)
    decreases n
  {
    if n == 0 {
      if k :| k in m {
        assert false;
      }
      assert m == map[];
    } else {
      var k := lo + n;
      var rest := m - {k};
      AlongIsTotal(rest, lo, n - 1);
      AlongLocal(m, rest, lo, n - 1);
      if k in m {
        TotalRemove(m, k);
      } else {
        assert rest == m;
      }
    }
  }

  lemma {:induction false} AlongLocal(a: map<int, int>, b: map<int, int>, lo: int, n: nat)
    requires forall k | lo < k <= lo + n :: Get(a, k) == Get(b, k)
    ensures Along(a, lo, n) == Along(b, lo, n)
  {
    if n > 0 {
      AlongLocal(a, b, lo, n - 1);
    }
  }

  /** Values of legs within 1 to n add up the same from either end of the legs. */
  lemma {:induction false} BothWays(m: map<int, int>, n: nat)
    requires forall k | k in m :: 1 <= k < n
    ensures Along(m, 0, n) == Along(m, -1, n) == Total(m)
  {
    AlongIsTotal(m, 0, n);
    AlongIsTotal(m, -1, n);
  }

  function SumToNext(stops: seq<StopView>): int {
    if stops == [] then 0 else SumToNext(stops[..|stops| - 1]) + OrZero(stops[|stops| - 1].distanceToNext)
  }

  function SumFromPrevious(stops: seq<StopView>): int {
    if stops == [] then 0
    else SumFromPrevious(stops[..|stops| - 1]) + OrZero(stops[|stops| - 1].distanceFromPrevious)
  }

  function TimeToNext(stops: seq<StopView>): int {
    if stops == [] then 0 else TimeToNext(stops[..|stops| - 1]) + OrZero(stops[|stops| - 1].durationToNext)
  }

  function TimeFromPrevious(stops: seq<StopView>): int {
    if stops == [] then 0
    else TimeFromPrevious(stops[..|stops| - 1]) + OrZero(stops[|stops| - 1].durationFromPrevious)
  }

  /** Views of stops numbered 1 to n, in order. */
  predicate InOrder(stops: seq<StopView>, legs: map<int, Leg>) {
    forall i | 0 <= i < |stops| :: stops[i] == View(legs, Stop(stops[i].id, i + 1))
  }

  lemma {:induction false} ViewSums(stops: seq<StopView>, legs: map<int, Leg>)
    requires InOrder(stops, legs)
    ensures SumToNext(stops) == Along(Distances(legs), 0, |stops|)
    ensures SumFromPrevious(stops) == Along(Distances(legs), -1, |stops|)
    ensures TimeToNext(stops) == Along(Durations(legs), 0, |stops|)
    ensures TimeFromPrevious(stops) == Along(Durations(legs), -1, |stops|)
  {
    if stops != [] {
      ViewSums(stops[..|stops| - 1], legs);
    }
  }

  lemma {:induction false} SortedNumbers(stops: seq<Stop>)
    requires Numbered(stops)
    ensures var sorted := Sort(stops, BySequence());
            |sorted| == |stops| && forall i | 0 <= i < |sorted| :: sorted[i].sequence == i + 1
  {
    var sorted := Sort(stops, BySequence());
    SequencesMultiset(stops, sorted);
    forall i, j | 0 <= i < j < |sorted| ensures Itself()(Sequences(sorted)[i]) <= Itself()(Sequences(sorted)[j]) {
      assert BySequence()(sorted[i]) <= BySequence()(sorted[j]);
    }
    OrderedUnique(Sequences(sorted), UpTo(|stops|));
    forall i | 0 <= i < |sorted| ensures sorted[i].sequence == i + 1 {
      assert Sequences(sorted)[i] == UpTo(|stops|)[i];
    }
  }

  lemma {:induction false} ViewsInOrder(from: seq<Stop>, legs: map<int, Leg>, stops: seq<StopView>)
    requires Numbered(from) && |stops| == |from|
    requires forall i | 0 <= i < |stops| :: stops[i] == View(legs, Sort(from, BySequence())[i])
    ensures InOrder(stops, legs)
  {
    SortedNumbers(from);
  }

  function Without<T>(s: seq<T>, j: nat): seq<T>
    requires j < |s|
  {
    s[..j] + s[j + 1..]
  }

  lemma {:induction false} WithoutMultiset<T>(s: seq<T>, j: nat)
    requires j < |s|
    ensures multiset(s) == multiset(Without(s, j)) + multiset{s[j]}
  {
    assert s == s[..j] + [s[j]] + s[j + 1..];
  }

  lemma {:induction false} WithoutSequences(s: seq<Stop>, j: nat)
    requires j < |s|
    ensures multiset(Sequences(s)) == multiset(Sequences(Without(s, j))) + multiset{s[j].sequence}
  {
    WithoutMultiset(Sequences(s), j);
    assert Sequences(Without(s, j)) == Without(Sequences(s), j);
  }

  /** Permuted stops have permuted sequence numbers. */
  lemma {:induction false} SequencesMultiset(a: seq<Stop>, b: seq<Stop>)
    requires multiset(a) == multiset(b)
    ensures multiset(Sequences(a)) == multiset(Sequences(b))
  {
    if a == [] {
      assert |multiset(b)| == 0;
    } else {
      var n := |a| - 1;
      assert a[n] in multiset(b);
      var j :| 0 <= j < |b| && b[j] == a[n];
      WithoutMultiset(a, n);
      WithoutMultiset(b, j);
      assert multiset(Without(a, n)) == multiset(a) - multiset{a[n]} == multiset(Without(b, j));
      SequencesMultiset(Without(a, n), Without(b, j));
      WithoutSequences(a, n);
      WithoutSequences(b, j);
    }
  }

  lemma {:induction false} LegsWithin(segments: seq<Segment>, n: nat)
    requires forall i | 0 <= i < |segments| :: 1 <= segments[i].from && segments[i].to <= n
    ensures forall k | k in Legs(segments) :: 1 <= k < n
  {
    if segments != [] {
      LegsWithin(segments[..|segments| - 1], n);
    }
  }

  /**
   For a route on an accepted stop list whose segments join its own stops, at least one of them
   adjacent: distances to the next stop, distances from the previous stop and the route's distance
   have one total, and so have the durations.
   */
  lemma {:induction false} TotalsAgree(route: Route, stops: seq<StopView>)
    requires Numbered(route.stops)
    requires forall i | 0 <= i < |route.segments| ::
      1 <= route.segments[i].from && route.segments[i].to <= |route.stops|
    requires |stops| == |route.stops|
    requires forall i | 0 <= i < |stops| ::
      stops[i] == View(Legs(route.segments), Sort(route.stops, BySequence())[i])
    ensures var legs := Legs(route.segments);
            && SumToNext(stops) == SumFromPrevious(stops) == Total(Distances(legs))
            && TimeToNext(stops) == TimeFromPrevious(stops) == Total(Durations(legs))
  {
    var legs, n := Legs(route.segments), |stops|;
    ViewsInOrder(route.stops, legs, stops);
    ViewSums(stops, legs);
    LegsWithin(route.segments, n);
    BothWays(Distances(legs), n);
    BothWays(Durations(legs), n);
  }

  function DistanceOf(): Segment -> int {
    (s: Segment) => s.distance
  }

  function DurationOf(): Segment -> int {
    (s: Segment) => s.duration
  }

  /** The sum of a quantity over the adjacent segments. */
  function OverAdjacent(segments: seq<Segment>, of: Segment -> int): int {
    if segments == [] then 0
    else
      var s := segments[|segments| - 1];
      OverAdjacent(segments[..|segments| - 1], of) + if s.from + 1 == s.to then of(s) else 0
  }

  lemma {:induction false} LegsComeFromSegments(segments: seq<Segment>, k: int)
    requires k in Legs(segments)
    ensures exists i | 0 <= i < |segments| :: segments[i].from == k && segments[i].to == k + 1
  {
    var n := |segments| - 1;
    var before := segments[..n];
    if k in Legs(before) {
      LegsComeFromSegments(before, k);
      var i :| 0 <= i < |before| && before[i].from == k && before[i].to == k + 1;
      assert segments[i] == before[i];
    } else {
      assert segments[n].from == k;
    }
  }

  /** With unique segments nothing is replaced: the route's totals are those of all its adjacent segments. */
  lemma {:induction false} UniqueSegmentsAddUp(segments: seq<Segment>)
    requires forall i, j | 0 <= i < j < |segments| ::
      segments[i].from != segments[j].from || segments[i].to != segments[j].to
    ensures Total(Distances(Legs(segments))) == OverAdjacent(segments, DistanceOf())
    ensures Total(Durations(Legs(segments))) == OverAdjacent(segments, DurationOf())
  {
    if segments == [] {
      assert Distances(Legs(segments)) == map[] && Durations(Legs(segments)) == map[];
    } else {
      var n := |segments| - 1;
      var s, before := segments[n], segments[..n];
      UniqueSegmentsAddUp(before);
      if s.from + 1 == s.to {
        forall k | k in Legs(before) ensures k != s.from {
          LegsComeFromSegments(before, k);
          var i :| 0 <= i < |before| && before[i].from == k && before[i].to == k + 1;
          assert segments[i] == before[i];
        }
        TotalAdd(Distances(Legs(before)), s.from, s.distance);
        TotalAdd(Durations(Legs(before)), s.from, s.duration);
        assert Distances(Legs(segments)) == Distances(Legs(before))[s.from := s.distance];
        assert Durations(Legs(segments)) == Durations(Legs(before))[s.from := s.duration];
      }
    }
  }
}
