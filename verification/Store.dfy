/**
 The rows that ticket sales, wallets, online validation, offline sync and the expiry job share.

 `Db` is one visible state of those tables; `Database` is the mutable store itself.  Times are
 integer milliseconds, money is an integer amount.  `completed` is a history variable: it lists
 the ledger rows in the order in which they became COMPLETED (the order of their `updatedAt`).
 */
module Store {
  import opened Wrappers

  type UserId(==, !new)
  type TicketId(==, !new)
  type TripId(==, !new)
  type Key(==, !new)
  type Ref(==, !new)

  datatype TicketStatus = Active | Used | Expired | Refunded

  datatype Ticket = Ticket(
    passenger: UserId,
    fare: int,
    purchasedAt: int,
    expiresAt: int,
    status: TicketStatus,
    usedAt: Option<int>,
    refundedAt: Option<int>)

  datatype EntryType = Topup | TicketPurchase | Refund | Adjustment

  datatype EntryStatus = Pending | Completed | Failed

  datatype Entry = Entry(
    owner: UserId,
    kind: EntryType,
    status: EntryStatus,
    amount: int,
    balanceAfter: Option<int>,
    ticket: Option<TicketId>,
    externalRef: Option<Ref>,
    key: Option<Key>)

  datatype ScanResult = Valid | ExpiredScan | AlreadyUsed | InvalidSignature | InspectionOnly | NotFound

  datatype ScanEvent = ScanEvent(
    ticket: TicketId,
    driver: UserId,
    trip: Option<TripId>,
    result: ScanResult,
    isInspection: bool,
    isOffline: bool,
    scannedAt: int,
    syncedAt: Option<int>)

  datatype TripStatus = Scheduled | InProgress | Done | Cancelled

  datatype Trip = Trip(
    driver: UserId,
    status: TripStatus,
    startedAt: Option<int>,
    endedAt: Option<int>)

  datatype Error =
    | WalletNotFound
    | InsufficientBalance
    | DuplicateKey
    | MissingKey
    | MalformedKey
    | DuplicateTicket
    | AmountOutOfRange
    | BadSignature
    | MalformedPayload
    | TicketNotFound
    | UnknownReference
    | NoActiveTrip
    | TicketExpired
    | TicketAlreadyUsed

  datatype Db = Db(
    tickets: map<TicketId, Ticket>,
    balances: map<UserId, int>,
    ledger: seq<Entry>,
    completed: seq<nat>,
    events: seq<ScanEvent>)

  const EMPTY := Db(map[], map[], [], [], [])

  class Database {
    var tickets: map<TicketId, Ticket>
    var balances: map<UserId, int>
    var ledger: seq<Entry>
    ghost var completed: seq<nat>
    var events: seq<ScanEvent>
    var trips: map<TripId, Trip>

    ghost function Rows(): Db
      reads this
    {
      Db(tickets, balances, ledger, completed, events)
    }

    constructor ()
      ensures Rows() == EMPTY && trips == map[]
    {
      tickets, balances, ledger, events, trips := map[], map[], [], [], map[];
      completed := [];
    }

    /** Insert one wallet transaction that is COMPLETED from the start. */
    method InsertCompleted(e: Entry)
      modifies this`ledger, this`completed
      ensures ledger == old(ledger) + [e]
      ensures completed == old(completed) + [|old(ledger)|]
    {
      completed := completed + [|ledger|];
      ledger := ledger + [e];
    }
  }

  // ---- Sums and selections over the ledger ----

  function SumOf(l: seq<Entry>, weight: Entry -> int): int {
    if l == [] then 0 else SumOf(l[..|l| - 1], weight) + weight(l[|l| - 1])
  }

  lemma {:induction false} SumOfPush(l: seq<Entry>, e: Entry, weight: Entry -> int)
    ensures SumOf(l + [e], weight) == SumOf(l, weight) + weight(e)
  {
    assert (l + [e])[..|l|] == l;
  }

  lemma {:induction false} SumOfSet(l: seq<Entry>, i: nat, e: Entry, weight: Entry -> int)
    requires i < |l|
    ensures SumOf(l[i := e], weight) == SumOf(l, weight) - weight(l[i]) + weight(e)
  {
    var n := |l| - 1;
    if i == n {
      assert l[i := e][..n] == l[..n];
    } else {
      SumOfSet(l[..n], i, e, weight);
      assert l[i := e][..n] == l[..n][i := e];
    }
  }

  /** The effect of a COMPLETED wallet transaction on its wallet. */
  function Signed(e: Entry): int {
    match e.kind
    case Topup => e.amount
    case TicketPurchase => -e.amount
    case Refund => e.amount
    case Adjustment => -e.amount
  }

  function SignedFor(u: UserId): Entry -> int {
    (e: Entry) => if e.owner == u then Signed(e) else 0
  }

  function AdjustmentFor(u: UserId): Entry -> int {
    (e: Entry) => if e.owner == u && e.kind == Adjustment then e.amount else 0
  }

  function CompletedTopup(): Entry -> int {
    (e: Entry) => if e.kind == Topup && e.status == Completed then e.amount else 0
  }

  /** What a ledger row says about a ticket, without the running balance. */
  datatype Line = Line(kind: EntryType, owner: UserId, amount: int)

  /** The ledger rows of one ticket (or, for None, those of no ticket), oldest first. */
  function Trail(l: seq<Entry>, t: Option<TicketId>): seq<Line> {
    if l == [] then []
    else
      var e := l[|l| - 1];
      Trail(l[..|l| - 1], t) + if e.ticket == t then [Line(e.kind, e.owner, e.amount)] else []
  }

  lemma {:induction false} TrailPush(l: seq<Entry>, e: Entry, t: Option<TicketId>)
    ensures Trail(l + [e], t)
         == Trail(l, t) + if e.ticket == t then [Line(e.kind, e.owner, e.amount)] else []
  {
    assert (l + [e])[..|l|] == l;
  }

  /** A row may change its status and running balance without changing any trail. */
  lemma {:induction false} TrailSet(l: seq<Entry>, i: nat, e: Entry, t: Option<TicketId>)
    requires i < |l| && e.ticket == l[i].ticket
    requires e.kind == l[i].kind && e.owner == l[i].owner && e.amount == l[i].amount
    ensures Trail(l[i := e], t) == Trail(l, t)
  {
    var n := |l| - 1;
    if i == n {
      assert l[i := e][..n] == l[..n];
    } else {
      TrailSet(l[..n], i, e, t);
      assert l[i := e][..n] == l[..n][i := e];
    }
  }
}
