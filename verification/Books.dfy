/**
 The books: what ties wallet balances, the ledger and unspent tickets together, and why each way of
 writing to the ledger keeps it that way.
 */
module Books {
  import opened Wrappers
  import opened Store
  import opened Totals
  import opened Wallet

  // ---- The invariant ----

  ghost predicate Sound(e: Entry, balances: map<UserId, int>) {
    && e.owner in balances
    && e.amount > 0
    && (e.kind == Topup <==> e.ticket == None)
    && (e.kind != Topup ==> e.status == Completed)
    && (e.status != Completed ==> e.balanceAfter == None)
  }

  /** `completed` lists exactly the COMPLETED rows, each once. */
  ghost predicate Indexed(ledger: seq<Entry>, completed: seq<nat>) {
    && (forall k | 0 <= k < |completed| :: completed[k] < |ledger| && ledger[completed[k]].status == Completed)
    && (forall j, k | 0 <= j < k < |completed| :: completed[j] != completed[k])
    && forall i: nat | i < |ledger| && ledger[i].status == Completed :: i in completed
  }

  ghost predicate WellKept(db: Db) {
    && (forall i | 0 <= i < |db.ledger| :: Sound(db.ledger[i], db.balances))
    && Indexed(db.ledger, db.completed)
  }

  /** The signed amounts of `u`'s entries, added up in the order in which they completed. */
  function Fold(ledger: seq<Entry>, order: seq<nat>, u: UserId): int {
    if order == [] then 0
    else
      var i := order[|order| - 1];
      Fold(ledger, order[..|order| - 1], u) + if i < |ledger| then SignedFor(u)(ledger[i]) else 0
  }

  /** Balances are folds of the ledger, and every recorded running balance is a prefix of that fold. */
  ghost predicate Folded(db: Db) {
    && (forall u | u in db.balances :: db.balances[u] == Fold(db.ledger, db.completed, u))
    && forall k | 0 <= k < |db.completed| && db.completed[k] < |db.ledger| ::
         var e := db.ledger[db.completed[k]];
         e.balanceAfter.Some? ==> e.balanceAfter.value == Fold(db.ledger, db.completed[..k + 1], e.owner)
  }

  function Adjustments(db: Db, u: UserId): int {
    SumOf(db.ledger, AdjustmentFor(u))
  }

  /** A wallet is overdrawn by no more than the refunds that were taken back from it. */
  ghost predicate Floored(db: Db) {
    forall u | u in db.balances :: db.balances[u] >= -Adjustments(db, u)
  }

  /** Fares of the tickets that have been paid for and not refunded. */
  function Held(tickets: map<TicketId, Ticket>): map<TicketId, int> {
    map t | t in tickets && tickets[t].status != Refunded :: tickets[t].fare
  }

  /**
   All money in wallets and in unrefunded tickets came in through completed top-ups, except for `extra`,
   which was paid out without cover.
   */
  ghost predicate Conserved(db: Db, extra: int) {
    Total(db.balances) + Total(Held(db.tickets)) == SumOf(db.ledger, CompletedTopup()) + extra
  }

  ghost predicate Balanced(db: Db, extra: int) {
    WellKept(db) && Folded(db) && Floored(db) && Conserved(db, extra)
  }

  // ---- Folds ----

  lemma {:induction false} FoldPush(ledger: seq<Entry>, order: seq<nat>, i: nat, u: UserId)
    requires i < |ledger|
    ensures Fold(ledger, order + [i], u) == Fold(ledger, order, u) + SignedFor(u)(ledger[i])
  {
    assert (order + [i])[..|order|] == order;
  }

  /** A fold depends on the rows it visits only. */
  lemma {:induction false} FoldSame(a: seq<Entry>, b: seq<Entry>, order: seq<nat>, u: UserId)
    requires forall k | 0 <= k < |order| :: order[k] < |a| && order[k] < |b| && a[order[k]] == b[order[k]]
    ensures Fold(a, order, u) == Fold(b, order, u)
  {
    if order != [] {
      FoldSame(a, b, order[..|order| - 1], u);
    }
  }

  lemma {:induction false} FoldOfStranger(ledger: seq<Entry>, order: seq<nat>, u: UserId)
    requires forall i | 0 <= i < |ledger| :: ledger[i].owner != u
    ensures Fold(ledger, order, u) == 0
  {
    if order != [] {
      FoldOfStranger(ledger, order[..|order| - 1], u);
    }
  }

  lemma {:induction false} AdjustmentsNotNegative(ledger: seq<Entry>, u: UserId)
    requires forall i | 0 <= i < |ledger| :: ledger[i].amount > 0
    ensures SumOf(ledger, AdjustmentFor(u)) >= 0
  {
    if ledger != [] {
      AdjustmentsNotNegative(ledger[..|ledger| - 1], u);
    }
  }

  /** `after` keeps the rows that are completed in `db`. */
  ghost predicate Keeps(db: Db, after: Db) {
    forall k | 0 <= k < |db.completed| ::
      && db.completed[k] < |db.ledger| && db.completed[k] < |after.ledger|
      && after.ledger[db.completed[k]] == db.ledger[db.completed[k]]
  }

  /** `after` is `db` with row `i` completed. */
  ghost predicate Completes(db: Db, after: Db, i: nat) {
    && i < |after.ledger| && i !in db.completed && after.completed == db.completed + [i]
    && Keeps(db, after)
    && var e := after.ledger[i];
       && e.owner in db.balances
       && after.balances == db.balances[e.owner := db.balances[e.owner] + Signed(e)]
       && (e.balanceAfter.Some? ==> e.balanceAfter.value == after.balances[e.owner])
  }

  lemma {:induction false} PrefixSame(db: Db, after: Db, n: nat, u: UserId)
    requires Indexed(db.ledger, db.completed) && Keeps(db, after) && n <= |db.completed|
    ensures Fold(after.ledger, db.completed[..n], u) == Fold(db.ledger, db.completed[..n], u)
  {
    FoldSame(db.ledger, after.ledger, db.completed[..n], u);
  }

  lemma {:induction false} FoldCompletes(db: Db, after: Db, i: nat, u: UserId)
    requires Indexed(db.ledger, db.completed) && Completes(db, after, i)
    requires u in db.balances && db.balances[u] == Fold(db.ledger, db.completed, u)
    ensures after.balances[u] == Fold(after.ledger, after.completed, u)
  {
    FoldPush(after.ledger, db.completed, i, u);
    FoldSame(db.ledger, after.ledger, db.completed, u);
  }

  /** A recorded balance that was the fold up to its row still is. */
  lemma {:induction false} PrefixStep(db: Db, after: Db, order: seq<nat>, k: nat)
    requires WellKept(db) && Folded(db) && Keeps(db, after)
    requires k < |db.completed| && order == db.completed[..k + 1]
    ensures var e := after.ledger[db.completed[k]];
            e.balanceAfter.Some? ==> e.balanceAfter.value == Fold(after.ledger, order, e.owner)
  {
    PrefixSame(db, after, k + 1, after.ledger[db.completed[k]].owner);
  }

  /** Completing row `i` extends every fold by that row, and leaves the earlier prefixes alone. */
  lemma {:induction false} FoldedStep(db: Db, after: Db, i: nat)
    requires WellKept(db) && Folded(db) && Completes(db, after, i)
    ensures Folded(after)
  {
    forall u | u in after.balances ensures after.balances[u] == Fold(after.ledger, after.completed, u) {
      FoldCompletes(db, after, i, u);
    }
    forall k | 0 <= k < |after.completed|
      ensures var e := after.ledger[after.completed[k]];
              e.balanceAfter.Some? ==> e.balanceAfter.value == Fold(after.ledger, after.completed[..k + 1], e.owner)
    {
      if k < |db.completed| {
        PrefixStep(db, after, after.completed[..k + 1], k);
      } else {
        assert after.completed[..k + 1] == after.completed;
      }
    }
  }

  /** Rows that complete nothing leave all folds alone. */
  lemma {:induction false} FoldedSame(db: Db, after: Db)
    requires WellKept(db) && Folded(db) && Keeps(db, after)
    requires after.completed == db.completed && after.balances == db.balances
    ensures Folded(after)
  {
    forall u | u in after.balances ensures after.balances[u] == Fold(after.ledger, after.completed, u) {
      FoldSame(db.ledger, after.ledger, db.completed, u);
    }
    forall k | 0 <= k < |after.completed|
      ensures var e := after.ledger[after.completed[k]];
              e.balanceAfter.Some? ==> e.balanceAfter.value == Fold(after.ledger, after.completed[..k + 1], e.owner)
    {
      PrefixStep(db, after, after.completed[..k + 1], k);
    }
  }

  // ---- Opening a wallet ----

  function Opened(db: Db, u: UserId): Db {
    if u in db.balances then db else db.(balances := db.balances[u := 0])
  }

  lemma {:induction false} OpeningKeepsBalanced(db: Db, u: UserId, extra: int)
    requires Balanced(db, extra)
    ensures Balanced(Opened(db, u), extra)
  {
    var after := Opened(db, u);
    if u !in db.balances {
      assert forall i | 0 <= i < |db.ledger| :: Sound(db.ledger[i], after.balances);
      FoldOfStranger(db.ledger, db.completed, u);
      AdjustmentsNotNegative(db.ledger, u);
      TotalAdd(db.balances, u, 0);
    }
  }

  // ---- Top-ups ----

  lemma {:induction false} InitiationFloors(db: Db, e: Entry, extra: int)
    requires Floored(db) && Conserved(db, extra) && e.kind == Topup && e.status == Pending
    ensures var after := db.(ledger := db.ledger + [e]);
            Floored(after) && Conserved(after, extra)
  {
    var after := db.(ledger := db.ledger + [e]);
    SumOfPush(db.ledger, e, CompletedTopup());
    forall v | v in after.balances ensures after.balances[v] >= -Adjustments(after, v) {
      SumOfPush(db.ledger, e, AdjustmentFor(v));
    }
  }

  lemma {:induction false} InitiationKeepsBalanced(db: Db, u: UserId, amount: int, ref: Ref, key: Key, extra: int)
    requires Balanced(db, extra) && u in db.balances && amount > 0
    ensures Balanced(db.(ledger := db.ledger + [TopupRow(u, amount, ref, key)]), extra)
  {
    var e := TopupRow(u, amount, ref, key);
    FoldedSame(db, db.(ledger := db.ledger + [e]));
    InitiationFloors(db, e, extra);
  }

  lemma {:induction false} SettledKept(db: Db, i: nat, success: bool)
    requires WellKept(db) && i < |db.ledger| && db.ledger[i].kind == Topup
    ensures WellKept(Settled(db, i, success))
  {
    var after := Settled(db, i, success);
    if after != db {
      assert i !in db.completed;
      assert forall j | 0 <= j < |db.ledger| && j != i :: after.ledger[j] == db.ledger[j];
      forall j: nat | j < |after.ledger| && after.ledger[j].status == Completed ensures j in after.completed {
        if j != i {
          assert j in db.completed;
        }
      }
    }
  }

  lemma {:induction false} SettledFolds(db: Db, i: nat, success: bool)
    requires WellKept(db) && Folded(db) && i < |db.ledger| && db.ledger[i].kind == Topup
    ensures Folded(Settled(db, i, success))
  {
    var after := Settled(db, i, success);
    if after.completed != db.completed {
      FoldedStep(db, after, i);
    } else {
      FoldedSame(db, after);
    }
  }

  lemma {:induction false} SettledFloors(db: Db, i: nat, success: bool)
    requires WellKept(db) && Floored(db) && i < |db.ledger| && db.ledger[i].kind == Topup
    ensures Floored(Settled(db, i, success))
  {
    var after := Settled(db, i, success);
    if after != db {
      forall v | v in after.balances ensures after.balances[v] >= -Adjustments(after, v) {
        SumOfSet(db.ledger, i, after.ledger[i], AdjustmentFor(v));
      }
    }
  }

  lemma {:induction false} SettledConserves(db: Db, i: nat, success: bool, extra: int)
    requires WellKept(db) && Conserved(db, extra) && i < |db.ledger| && db.ledger[i].kind == Topup
    ensures Conserved(Settled(db, i, success), extra)
  {
    var after := Settled(db, i, success);
    if after != db {
      var e := db.ledger[i];
      SumOfSet(db.ledger, i, after.ledger[i], CompletedTopup());
      if after.balances != db.balances {
        TotalUpdate(db.balances, e.owner, db.balances[e.owner] + e.amount);
      }
    }
  }

  lemma {:induction false} SettlingKeepsBalanced(db: Db, i: nat, success: bool, extra: int)
    requires Balanced(db, extra) && i < |db.ledger| && db.ledger[i].kind == Topup
    ensures Balanced(Settled(db, i, success), extra)
  {
    SettledKept(db, i, success);
    SettledFolds(db, i, success);
    SettledFloors(db, i, success);
    SettledConserves(db, i, success, extra);
  }

  // ---- Purchases, refunds and reversals ----

  /** An entry that may be posted: it moves money between a wallet and a ticket. */
  ghost predicate Postable(db: Db, e: Entry) {
    && Sound(e, db.balances) && e.kind != Topup
    && (e.balanceAfter.Some? ==> e.balanceAfter.value == db.balances[e.owner] + Signed(e))
    && (e.kind == TicketPurchase ==> e.amount <= db.balances[e.owner])
  }

  lemma {:induction false} PostKept(db: Db, e: Entry)
    requires WellKept(db) && Postable(db, e)
    ensures WellKept(Post(db, e))
  {
    var after := Post(db, e);
    assert forall j | 0 <= j < |db.ledger| :: after.ledger[j] == db.ledger[j];
    forall j: nat | j < |after.ledger| && after.ledger[j].status == Completed ensures j in after.completed {
      if j < |db.ledger| {
        assert j in db.completed;
      } else {
        assert after.completed[|db.completed|] == j;
      }
    }
  }

  lemma {:induction false} PostFloors(db: Db, e: Entry)
    requires WellKept(db) && Floored(db) && Postable(db, e)
    ensures Floored(Post(db, e))
  {
    var after := Post(db, e);
    forall u | u in after.balances ensures after.balances[u] >= -Adjustments(after, u) {
      SumOfPush(db.ledger, e, AdjustmentFor(u));
      AdjustmentsNotNegative(db.ledger, u);
    }
  }

  lemma {:induction false} PostConserves(db: Db, e: Entry, tickets: map<TicketId, Ticket>, extra: int, more: int)
    requires Conserved(db, extra) && Postable(db, e)
    requires Total(Held(tickets)) == Total(Held(db.tickets)) - Signed(e) + more
    ensures Conserved(Post(db, e).(tickets := tickets), extra + more)
  {
    TotalUpdate(db.balances, e.owner, db.balances[e.owner] + Signed(e));
    SumOfPush(db.ledger, e, CompletedTopup());
  }

  lemma {:induction false} PostFolds(db: Db, e: Entry)
    requires WellKept(db) && Folded(db) && Postable(db, e)
    ensures Folded(Post(db, e))
  {
    FoldedStep(db, Post(db, e), |db.ledger|);
  }

  /**
   What a posting takes out of a wallet is held by a ticket afterwards, and vice versa; `more` is what
   it pays out beyond that.
   */
  lemma {:induction false} PostingKeepsBalanced(
    db: Db, e: Entry, tickets: map<TicketId, Ticket>, extra: int, more: int)
    requires Balanced(db, extra) && Postable(db, e)
    requires Total(Held(tickets)) == Total(Held(db.tickets)) - Signed(e) + more
    ensures Balanced(Post(db, e).(tickets := tickets), extra + more)
  {
    PostKept(db, e);
    PostFolds(db, e);
    PostFloors(db, e);
    PostConserves(db, e, tickets, extra, more);
  }

  /** Changes of ticket rows and the scan log: `more` is by how much the fares held grow. */
  lemma {:induction false} RowsKeepBalanced(
    db: Db, tickets: map<TicketId, Ticket>, events: seq<ScanEvent>, extra: int, more: int)
    requires Balanced(db, extra) && Total(Held(tickets)) == Total(Held(db.tickets)) + more
    ensures Balanced(db.(tickets := tickets, events := events), extra + more)
  {
  }

  lemma {:induction false} HeldPut(tickets: map<TicketId, Ticket>, t: TicketId, row: Ticket)
    ensures Total(Held(tickets[t := row]))
         == Total(Held(tickets))
          - (if t in tickets && tickets[t].status != Refunded then tickets[t].fare else 0)
          + (if row.status != Refunded then row.fare else 0)
  {
    var held, after := Held(tickets), Held(tickets[t := row]);
    if t in held {
      TotalRemove(held, t);
    }
    var rest := held - {t};
    if row.status != Refunded {
      TotalAdd(rest, t, row.fare);
      assert after == rest[t := row.fare];
    } else {
      assert after == rest;
    }
    if t !in held {
      assert rest == held;
    }
  }
}
