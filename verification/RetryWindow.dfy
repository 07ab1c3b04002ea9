/** Retries by the clock: within 24 hours of a stored response the first ticket, afterwards a refusal. */
module RetryWindow {
  import opened Wrappers
  import opened Store
  import opened Idempotency
  import Sync
  import Wallet
  import Runs

  const DAY_MS := 86400000

  /** Whatever is kept under the key of `first` is its ticket, for 24 hours from its purchase. */
  predicate KeepsOnly(s: Server, first: Request) {
    var kept := Cached(first.t, first.now + DAY_MS);
    && (first.key in s.cache ==> s.cache[first.key] == kept)
    && (first.key in s.pending ==> s.pending[first.key] == kept)
  }

  predicate Keeps(s: Server, first: Request) {
    KeepsOnly(s, first) && (first.key in s.cache || first.key in s.pending)
  }

  /** The event is no cleanup at a time after the response has expired. */
  predicate InTime(e: Event, first: Request) {
    e.Cleanup? ==> e.now <= first.now + DAY_MS
  }

  lemma {:induction false} CachedIsUsed(s: Server, key: Key)
    requires Consistent(s)
    ensures key in s.cache ==> Wallet.KeyUsed(s.db.ledger, key)
  {
    if key in s.cache {
      var i: nat :| IsPurchase(s.db.ledger, i, s.cache[key].ticket) && s.db.ledger[i].key == Some(key);
    }
  }

  lemma {:induction false} FirstKeeps(s: Server, first: Request)
    requires Consistent(s) && Serve(s, first).reply.Fresh?
    ensures Keeps(Serve(s, first).after, first)
    ensures Wallet.KeyUsed(Serve(s, first).after.db.ledger, first.key)
  {
    CachedIsUsed(s, first.key);
    var ledger := Serve(s, first).after.db.ledger;
    assert ledger[|s.db.ledger|].key == Some(first.key);
  }

  /** Once the key is used no purchase under it goes through again. */
  lemma {:induction false} NextKeeps(s: Server, qr: Sync.Qr, e: Event, first: Request)
    requires Wallet.KeyUsed(s.db.ledger, first.key) && KeepsOnly(s, first)
    ensures KeepsOnly(Next(s, qr, e), first)
    ensures Keeps(s, first) && InTime(e, first) ==> Keeps(Next(s, qr, e), first)
    ensures first.key in s.cache && InTime(e, first) ==> first.key in Next(s, qr, e).cache
    ensures Keeps(s, first) && e == Persist(first.key) ==> first.key in Next(s, qr, e).cache
  {
  }

  lemma {:induction false} NextKeepsUsed(s: Server, qr: Sync.Qr, e: Event, key: Key)
    requires Wallet.KeyUsed(s.db.ledger, key)
    ensures Wallet.KeyUsed(Next(s, qr, e).db.ledger, key)
  {
    var i :| 0 <= i < |s.db.ledger| && s.db.ledger[i].key == Some(key);
    match e
    case Buy(r) =>
      if r.fare > 0 {
        ServeIsStep(s, qr, r);
        StepGrows(s.db, qr, Runs.Purchase(r.u, r.fare, r.t, r.key, r.now));
      }
      assert Next(s, qr, e).db.ledger[i].key == Some(key);
    case Other(a) =>
      StepGrows(s.db, qr, a);
      assert Next(s, qr, e).db.ledger[i].key == Some(key);
    case _ =>
  }

  /** The purchase `first` went through as event `n` of the run. */
  predicate WentThrough(qr: Sync.Qr, run: seq<Event>, n: nat, first: Request) {
    n < |run| && run[n] == Buy(first) && first.fare > 0 && Serve(Run(qr, run[..n]), first).reply.Fresh?
  }

  predicate AllInTime(run: seq<Event>, n: nat, first: Request) {
    forall k | n < k < |run| :: InTime(run[k], first)
  }

  predicate StoredBetween(run: seq<Event>, n: nat, first: Request) {
    exists m | n < m < |run| :: run[m] == Persist(first.key)
  }

  lemma {:induction false} RunKeeps(qr: Sync.Qr, run: seq<Event>, n: nat, first: Request)
    requires WentThrough(qr, run, n, first)
    ensures Wallet.KeyUsed(Run(qr, run).db.ledger, first.key) && KeepsOnly(Run(qr, run), first)
    ensures AllInTime(run, n, first) ==> Keeps(Run(qr, run), first)
    ensures AllInTime(run, n, first) && StoredBetween(run, n, first) ==> first.key in Run(qr, run).cache
  {
    var last := |run| - 1;
    var before := run[..last];
    if n == last {
      RunConsistent(qr, before);
      FirstKeeps(Run(qr, before), first);
    } else {
      assert before[..n] == run[..n];
      RunKeeps(qr, before, n, first);
      NextKeeps(Run(qr, before), qr, run[last], first);
      NextKeepsUsed(Run(qr, before), qr, run[last], first.key);
      if AllInTime(run, n, first) {
        assert forall k | n < k < |before| :: before[k] == run[k];
        if StoredBetween(run, n, first) && run[last] != Persist(first.key) {
          var m :| n < m < |run| && run[m] == Persist(first.key);
          assert before[m] == Persist(first.key);
        }
      }
    }
  }

  /**
   A retry less than 24 hours after a purchase whose response was stored is answered with the ticket of
   that purchase, whatever else happened; expired rows may have been cleaned up meanwhile.
   */
  lemma {:induction false} RetryWithinADay(qr: Sync.Qr, run: seq<Event>, n: nat, first: Request, retry: Request)
    requires WentThrough(qr, run, n, first) && StoredBetween(run, n, first) && AllInTime(run, n, first)
    requires retry.key == first.key && retry.now < first.now + DAY_MS
    ensures Serve(Run(qr, run), retry).reply == Replayed(first.t)
  {
    RunKeeps(qr, run, n, first);
  }

  /** A retry 24 hours after the purchase or later is refused, stored or not. */
  lemma {:induction false} RetryAfterADay(qr: Sync.Qr, run: seq<Event>, n: nat, first: Request, retry: Request)
    requires WentThrough(qr, run, n, first)
    requires retry.key == first.key && retry.now >= first.now + DAY_MS
    ensures Serve(Run(qr, run), retry).reply.Rejected?
  {
    RunKeeps(qr, run, n, first);
  }

  /** A first purchase under a key is answered with its own ticket. */
  lemma {:induction false} FirstIsAnswered(qr: Sync.Qr, run: seq<Event>, first: Request)
    requires first.fare > 0 && !Wallet.KeyUsed(Run(qr, run).db.ledger, first.key)
    requires first.u in Run(qr, run).db.balances && Run(qr, run).db.balances[first.u] >= first.fare
    requires first.t !in Run(qr, run).db.tickets
    ensures Serve(Run(qr, run), first).reply == Fresh(first.t)
  {
    var s := Run(qr, run);
    RunConsistent(qr, run);
    CachedIsUsed(s, first.key);
  }

  /** The cleanup job deletes exactly the stored responses that have expired. */
  lemma {:induction false} CleanupEffect(s: Server, qr: Sync.Qr, now: int)
    ensures var after := Next(s, qr, Cleanup(now));
            && (forall k :: k in after.cache <==> k in s.cache && s.cache[k].expiresAt >= now)
            && (forall k | k in after.cache :: after.cache[k] == s.cache[k])
            && after.db == s.db && after.pending == s.pending
  {
  }

  /** Storing a response in the background touches its key only, and never replaces a stored row. */
  lemma {:induction false} PersistEffect(s: Server, qr: Sync.Qr, key: Key)
    ensures var after := Next(s, qr, Persist(key));
            && (key in after.cache <==> key in s.cache || key in s.pending)
            && (key in after.cache ==> after.cache[key] == if key in s.cache then s.cache[key] else s.pending[key])
            && (forall k | k != key :: k in after.cache <==> k in s.cache)
            && (forall k | k in after.cache && k != key :: after.cache[k] == s.cache[k])
            && after.db == s.db
  {
  }
}
