/**
 Idempotent purchases: a guard that replays stored responses, an interceptor that stores them in the
 background, a cleanup job that deletes them, and the unique key in the ledger behind all three.
 */
module Idempotency {
  import opened Wrappers
  import opened Store
  import opened Runs
  import Wallet
  import Tickets
  import Sync
  import Overdraft

  const TTL_MS := 24 * 60 * 60 * 1000

  /** A stored response: the ticket that the purchase returned. */
  datatype Cached = Cached(ticket: TicketId, expiresAt: int)

  /** `pending` holds responses that were sent and whose storage has not finished, or never will. */
  datatype Server = Server(db: Db, cache: map<Key, Cached>, pending: map<Key, Cached>)

  datatype Reply = Replayed(ticket: TicketId) | Fresh(ticket: TicketId) | Rejected(error: Error)

  datatype Request = Request(u: UserId, fare: int, t: TicketId, key: Key, now: int)

  predicate Live(s: Server, key: Key, now: int) {
    key in s.cache && s.cache[key].expiresAt > now
  }

  datatype Served = Served(after: Server, reply: Reply)

  /** A purchase request: the guard, then the handler, then the interceptor. */
  function Serve(s: Server, r: Request): Served {
    if Live(s, r.key, r.now) then Served(s, Replayed(s.cache[r.key].ticket))
    else
      match Tickets.Purchased(s.db, r.u, r.fare, r.t, r.key, r.now)
      case Failure(e) => Served(s, Rejected(e))
      case Success(db) =>
        Served(s.(db := db, pending := s.pending[r.key := Cached(r.t, r.now + TTL_MS)]), Fresh(r.t))
  }

  /** The background insert; the key is unique, so it fails while an older row is still there. */
  function Persisted(s: Server, key: Key): Server {
    if key !in s.pending then s
    else s.(pending := s.pending - {key},
            cache := if key in s.cache then s.cache else s.cache[key := s.pending[key]])
  }

  function CleanedUp(s: Server, now: int): Server {
    s.(cache := map k | k in s.cache && s.cache[k].expiresAt >= now :: s.cache[k])
  }

  datatype Event =
    | Buy(request: Request)
    | Persist(key: Key)
    | Cleanup(now: int)
    | Other(action: Action)

  function Next(s: Server, qr: Sync.Qr, e: Event): Server {
    match e
    case Buy(r) => if r.fare > 0 then Serve(s, r).after else s
    case Persist(key) => Persisted(s, key)
    case Cleanup(now) => CleanedUp(s, now)
    case Other(a) => s.(db := Step(s.db, qr, a))
  }

  const START := Server(EMPTY, map[], map[])

  function Run(qr: Sync.Qr, run: seq<Event>): Server {
    if run == [] then START else Next(Run(qr, run[..|run| - 1]), qr, run[|run| - 1])
  }

  // ---- What every reachable state keeps ----

  predicate KeysUnique(ledger: seq<Entry>) {
    forall i, j | 0 <= i < j < |ledger| && ledger[i].key.Some? :: ledger[i].key != ledger[j].key
  }

  /** Ledger row `i` is the purchase of `t`. */
  predicate IsPurchase(ledger: seq<Entry>, i: nat, t: TicketId) {
    i < |ledger| && ledger[i].kind == TicketPurchase && ledger[i].ticket == Some(t)
  }

  /** Tickets and purchase rows correspond one to one. */
  ghost predicate PurchasesMatch(db: Db) {
    && (forall t | t in db.tickets :: exists i :: IsPurchase(db.ledger, i, t))
    && (forall i | 0 <= i < |db.ledger| && db.ledger[i].ticket.Some? :: db.ledger[i].ticket.value in db.tickets)
    && (forall i | 0 <= i < |db.ledger| && db.ledger[i].kind == TicketPurchase :: db.ledger[i].ticket.Some?)
    && forall i: nat, j: nat, t :: IsPurchase(db.ledger, i, t) && IsPurchase(db.ledger, j, t) ==> i == j
  }

  /** `key` paid for `t`. */
  ghost predicate PaidBy(ledger: seq<Entry>, key: Key, t: TicketId) {
    exists i: nat :: IsPurchase(ledger, i, t) && ledger[i].key == Some(key)
  }

  ghost predicate Consistent(s: Server) {
    && KeysUnique(s.db.ledger)
    && PurchasesMatch(s.db)
    && (forall k | k in s.cache :: PaidBy(s.db.ledger, k, s.cache[k].ticket))
    && forall k | k in s.pending :: PaidBy(s.db.ledger, k, s.pending[k].ticket)
  }

  /** What steps other than a purchase may do to the ledger. */
  ghost predicate LedgerGrows(a: seq<Entry>, b: seq<Entry>) {
    && |a| <= |b|
    && forall i | 0 <= i < |a| ::
         b[i].key == a[i].key && b[i].kind == a[i].kind && b[i].ticket == a[i].ticket && b[i].owner == a[i].owner
  }

  lemma {:induction false} PaidByGrows(a: seq<Entry>, b: seq<Entry>, key: Key, t: TicketId)
    requires LedgerGrows(a, b) && PaidBy(a, key, t)
    ensures PaidBy(b, key, t)
  {
    var i: nat :| IsPurchase(a, i, t) && a[i].key == Some(key);
    assert IsPurchase(b, i, t);
  }

  lemma {:induction false} StepGrows(db: Db, qr: Sync.Qr, a: Action)
    ensures LedgerGrows(db.ledger, Step(db, qr, a).ledger)
  {
  }

  lemma {:induction false} StepKeepsKeys(db: Db, qr: Sync.Qr, a: Action)
    requires KeysUnique(db.ledger)
    ensures KeysUnique(Step(db, qr, a).ledger)
  {
    var after := Step(db, qr, a);
    StepGrows(db, qr, a);
    assert |after.ledger| <= |db.ledger| + 1;
    assert |after.ledger| > |db.ledger| && after.ledger[|db.ledger|].key.Some? ==>
      !Wallet.KeyUsed(db.ledger, after.ledger[|db.ledger|].key.value);
  }

  /** At most one row is added; it is a purchase only together with its new ticket. */
  ghost predicate Adds(db: Db, after: Db) {
    && LedgerGrows(db.ledger, after.ledger) && |after.ledger| <= |db.ledger| + 1
    && db.tickets.Keys <= after.tickets.Keys
    && (forall t | t in after.tickets && t !in db.tickets :: IsPurchase(after.ledger, |db.ledger|, t))
    && (|after.ledger| > |db.ledger| ==>
          var e := after.ledger[|db.ledger|];
          && (e.kind == TicketPurchase ==> e.ticket.Some? && e.ticket.value !in db.tickets)
          && (e.ticket.Some? ==> e.ticket.value in after.tickets))
  }

  lemma {:induction false} StepAdds(db: Db, qr: Sync.Qr, a: Action)
    ensures Adds(db, Step(db, qr, a))
  {
    StepGrows(db, qr, a);
  }

  lemma {:induction false} AddsKeepsOnePurchase(db: Db, after: Db, i: nat, j: nat, t: TicketId)
    requires PurchasesMatch(db) && Adds(db, after)
    requires IsPurchase(after.ledger, i, t) && IsPurchase(after.ledger, j, t)
    ensures i == j
  {
    assert i < |db.ledger| ==> IsPurchase(db.ledger, i, t);
    assert j < |db.ledger| ==> IsPurchase(db.ledger, j, t);
  }

  lemma {:induction false} AddsKeepsPurchases(db: Db, after: Db)
    requires PurchasesMatch(db) && Adds(db, after)
    ensures PurchasesMatch(after)
  {
    forall t | t in after.tickets ensures exists i :: IsPurchase(after.ledger, i, t) {
      if t in db.tickets {
        var i :| IsPurchase(db.ledger, i, t);
        assert IsPurchase(after.ledger, i, t);
      }
    }
    forall i: nat, j: nat, t | IsPurchase(after.ledger, i, t) && IsPurchase(after.ledger, j, t) ensures i == j {
      AddsKeepsOnePurchase(db, after, i, j, t);
    }
  }

  /** A served purchase is the purchase step of the system, or nothing. */
  lemma {:induction false} ServeIsStep(s: Server, qr: Sync.Qr, r: Request)
    requires r.fare > 0
    ensures var out := Serve(s, r);
            && (out.reply.Fresh? ==>
                  && out.after.db == Step(s.db, qr, Action.Purchase(r.u, r.fare, r.t, r.key, r.now))
                  && PaidBy(out.after.db.ledger, r.key, r.t))
            && (!out.reply.Fresh? ==> out.after == s)
  {
    var out := Serve(s, r);
    if out.reply.Fresh? {
      assert IsPurchase(out.after.db.ledger, |s.db.ledger|, r.t);
    }
  }

  lemma {:induction false} StepKeepsConsistent(s: Server, qr: Sync.Qr, a: Action)
    requires Consistent(s)
    ensures Consistent(s.(db := Step(s.db, qr, a)))
  {
    var db := Step(s.db, qr, a);
    StepKeepsKeys(s.db, qr, a);
    StepAdds(s.db, qr, a);
    AddsKeepsPurchases(s.db, db);
    forall k, t | PaidBy(s.db.ledger, k, t) ensures PaidBy(db.ledger, k, t) {
      PaidByGrows(s.db.ledger, db.ledger, k, t);
    }
  }

  lemma {:induction false} NextKeepsConsistent(s: Server, qr: Sync.Qr, e: Event)
    requires Consistent(s)
    ensures Consistent(Next(s, qr, e))
  {
    match e
    case Buy(r) =>
      if r.fare > 0 {
        ServeIsStep(s, qr, r);
        StepKeepsConsistent(s, qr, Action.Purchase(r.u, r.fare, r.t, r.key, r.now));
      }
    case Persist(_) =>
    case Cleanup(_) =>
    case Other(a) => StepKeepsConsistent(s, qr, a);
  }

  /** At most one wallet entry per key, and one purchase entry per ticket, in every reachable state. */
  lemma {:induction false} RunConsistent(qr: Sync.Qr, run: seq<Event>)
    ensures Consistent(Run(qr, run))
  {
    if run != [] {
      RunConsistent(qr, run[..|run| - 1]);
      NextKeepsConsistent(Run(qr, run[..|run| - 1]), qr, run[|run| - 1]);
    }
  }

  lemma {:induction false} NextKeepsPaid(s: Server, qr: Sync.Qr, e: Event, key: Key, t: TicketId)
    requires PaidBy(s.db.ledger, key, t)
    ensures PaidBy(Next(s, qr, e).db.ledger, key, t)
  {
    match e
    case Buy(r) =>
      if r.fare > 0 {
        ServeIsStep(s, qr, r);
        StepGrows(s.db, qr, Action.Purchase(r.u, r.fare, r.t, r.key, r.now));
        PaidByGrows(s.db.ledger, Next(s, qr, e).db.ledger, key, t);
      }
    case Other(a) =>
      StepGrows(s.db, qr, a);
      PaidByGrows(s.db.ledger, Next(s, qr, e).db.ledger, key, t);
    case _ =>
  }

  lemma {:induction false} PaidStaysPaid(qr: Sync.Qr, run: seq<Event>, n: nat, key: Key, t: TicketId)
    requires n <= |run| && PaidBy(Run(qr, run[..n]).db.ledger, key, t)
    ensures PaidBy(Run(qr, run).db.ledger, key, t)
  {
    if n == |run| {
      assert run[..n] == run;
    } else {
      var m := |run| - 1;
      assert run[..m][..n] == run[..n];
      PaidStaysPaid(qr, run[..m], n, key, t);
      NextKeepsPaid(Run(qr, run[..m]), qr, run[m], key, t);
    }
  }

  lemma {:induction false} OneTicketPerKey(s: Server, key: Key, t: TicketId, u: TicketId)
    requires Consistent(s) && PaidBy(s.db.ledger, key, t) && PaidBy(s.db.ledger, key, u)
    ensures t == u
  {
    var i: nat :| IsPurchase(s.db.ledger, i, t) && s.db.ledger[i].key == Some(key);
    var j: nat :| IsPurchase(s.db.ledger, j, u) && s.db.ledger[j].key == Some(key);
    assert i == j;
  }

  /**
   A request that repeats the key of an earlier successful purchase, at any later point of any run,
   changes nothing, whether the stored response is live, expired, never stored or cleaned up.  It is
   answered with the original ticket exactly when a live stored response exists, else refused.
   */
  lemma {:induction false} RetryChangesNothing(qr: Sync.Qr, run: seq<Event>, n: nat, first: Request, retry: Request)
    requires n < |run| && run[n] == Buy(first) && first.fare > 0
    requires Serve(Run(qr, run[..n]), first).reply.Fresh?
    requires retry.key == first.key
    ensures var s := Run(qr, run);
            var out := Serve(s, retry);
            && out.after == s
            && (out.reply == Replayed(first.t) <==> Live(s, retry.key, retry.now))
            && (!Live(s, retry.key, retry.now) ==> out.reply.Rejected?)
  {
    var s := Run(qr, run);
    var at := run[..n + 1];
    assert at[..n] == run[..n] && at[n] == run[n];
    ServeIsStep(Run(qr, run[..n]), qr, first);
    PaidStaysPaid(qr, run, n + 1, first.key, first.t);
    var i: nat :| IsPurchase(s.db.ledger, i, first.t) && s.db.ledger[i].key == Some(first.key);
    assert Wallet.KeyUsed(s.db.ledger, retry.key);
    RunConsistent(qr, run);
    if Live(s, retry.key, retry.now) {
      OneTicketPerKey(s, retry.key, first.t, s.cache[retry.key].ticket);
    }
  }

  // ---- A retry that is refused ----

  function Others(run: seq<Action>): seq<Event> {
    seq(|run|, i requires 0 <= i < |run| => Other(run[i]))
  }

  lemma {:induction false} OthersRun(qr: Sync.Qr, run: seq<Action>)
    ensures Run(qr, Others(run)) == Server(Runs.Run(qr, run), map[], map[])
  {
    if run != [] {
      var n := |run| - 1;
      OthersRun(qr, run[..n]);
      assert Others(run)[..n] == Others(run[..n]);
    }
  }

  lemma {:induction false} BuysFresh(s: Server, r: Request)
    requires r.u in s.db.balances && s.db.balances[r.u] >= r.fare && r.t !in s.db.tickets && r.key !in s.cache
    requires !Wallet.KeyUsed(s.db.ledger, r.key)
    ensures var out := Serve(s, r);
            && out.reply == Fresh(r.t)
            && out.after.db.balances == s.db.balances[r.u := s.db.balances[r.u] - r.fare]
            && out.after.cache == s.cache
            && Wallet.KeyUsed(out.after.db.ledger, r.key)
  {
    var ledger := Serve(s, r).after.db.ledger;
    assert ledger[|s.db.ledger|].key == Some(r.key);
  }

  /**
   A client that repeats a purchase before its response was stored is refused, although it could pay
   and the purchase had gone through.
   */
  lemma {:induction false} RetryCanBeRefused(
    qr: Sync.Qr, u: UserId, t: TicketId, t': TicketId, ref: Ref, key: Key, topup: Key, now: int)
    requires key != topup
    ensures var funding := Others(Overdraft.ToppedUp(u, ref, topup));
            var first, retry := Request(u, 40, t, key, now), Request(u, 40, t', key, now);
            && Serve(Run(qr, funding), first).reply == Fresh(t)
            && Serve(Run(qr, funding + [Buy(first)]), retry).reply == Rejected(DuplicateKey)
  {
    var funding, first := Others(Overdraft.ToppedUp(u, ref, topup)), Request(u, 40, t, key, now);
    Overdraft.AfterTopup(qr, u, ref, topup);
    OthersRun(qr, Overdraft.ToppedUp(u, ref, topup));
    BuysFresh(Run(qr, funding), first);
    assert (funding + [Buy(first)])[..|funding|] == funding;
  }

  // ---- The endpoint ----

  class Endpoint {
    const db: Database
    var cache: map<Key, Cached>
    var pending: map<Key, Cached>

    ghost function State(): Server
      reads this, db
    {
      Server(db.Rows(), cache, pending)
    }

    constructor (db: Database)
      ensures this.db == db && cache == map[] && pending == map[]
    {
      this.db := db;
      cache, pending := map[], map[];
    }

    /** The guard: a live stored response short-circuits the handler. */
    method Replay(key: Key, now: int) returns (r: Option<TicketId>)
      ensures r == if Live(State(), key, now) then Some(cache[key].ticket) else None
    {
      if key in cache && cache[key].expiresAt > now {
        return Some(cache[key].ticket);
      }
      r := None;
    }

    /** A purchase request with its idempotency header; `keyOf` accepts the well-formed keys. */
    method Handle(header: Option<string>, keyOf: string -> Option<Key>, u: UserId, fare: int, t: TicketId, now: int)
      returns (reply: Reply)
      modifies this, db
      ensures header.None? || header.value == "" ==> reply == Rejected(MissingKey) && State() == old(State())
      ensures header.Some? && header.value != "" ==>
        match keyOf(header.value)
        case None => reply == Rejected(MalformedKey) && State() == old(State())
        case Some(key) => Served(State(), reply) == Serve(old(State()), Request(u, fare, t, key, now))
    {
      if header.None? || header.value == "" {
        return Rejected(MissingKey);
      }
      var parsed := keyOf(header.value);
      if parsed.None? {
        return Rejected(MalformedKey);
      }
      var key := parsed.value;
      var hit := Replay(key, now);
      if hit.Some? {
        return Replayed(hit.value);
      }
      var bought := Tickets.Purchase(db, u, fare, t, key, now);
      if bought.Failure? {
        return Rejected(bought.error);
      }
      pending := pending[key := Cached(t, now + TTL_MS)];
      reply := Fresh(t);
    }

    /** The interceptor's insert, whenever it happens. */
    method StoreResponse(key: Key)
      modifies this
      ensures State() == Persisted(old(State()), key)
    {
      if key in pending {
        if key !in cache {
          cache := cache[key := pending[key]];
        }
        pending := pending - {key};
      }
    }

    method CleanupIdempotencyKeys(now: int)
      modifies this
      ensures State() == CleanedUp(old(State()), now)
    {
      cache := map k | k in cache && cache[k].expiresAt >= now :: cache[k];
    }
  }
}
