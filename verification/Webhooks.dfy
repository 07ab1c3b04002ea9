/** Payment callbacks may be repeated and reordered: a top-up is credited once or not at all. */
module Webhooks {
  import opened Store
  import opened Wallet
  import opened Runs
  import Sync

  /** An authentic callback, matched to a ledger row. */
  datatype Callback = Callback(row: nat, success: bool)

  function SettleAll(db: Db, cs: seq<Callback>): Db
    requires forall k | 0 <= k < |cs| :: cs[k].row < |db.ledger|
    ensures |SettleAll(db, cs).ledger| == |db.ledger|
  {
    if cs == [] then db
    else
      var c := cs[|cs| - 1];
      Settled(SettleAll(db, cs[..|cs| - 1]), c.row, c.success)
  }

  /** The provider's references name one top-up each. */
  ghost predicate RefUnique(ledger: seq<Entry>, ref: Ref) {
    forall i: nat, j: nat :: IsTopup(ledger, i, ref) && IsTopup(ledger, j, ref) ==> i == j
  }

  predicate Mentions(cs: seq<Callback>, i: nat) {
    exists k | 0 <= k < |cs| :: cs[k].row == i
  }

  predicate ReportsSuccess(cs: seq<Callback>, i: nat) {
    exists k | 0 <= k < |cs| :: cs[k] == Callback(i, true)
  }

  function FinalStatus(before: EntryStatus, cs: seq<Callback>, i: nat): EntryStatus {
    if before == Completed || ReportsSuccess(cs, i) then Completed
    else if Mentions(cs, i) then Failed
    else before
  }

  lemma {:induction false} MentionsPush(cs: seq<Callback>, c: Callback, i: nat)
    ensures Mentions(cs + [c], i) <==> Mentions(cs, i) || c.row == i
    ensures ReportsSuccess(cs + [c], i) <==> ReportsSuccess(cs, i) || c == Callback(i, true)
  {
    var all := cs + [c];
    assert all[|cs|] == c;
    if k :| 0 <= k < |cs| && cs[k].row == i {
      assert all[k] == cs[k];
    }
    if k :| 0 <= k < |cs| && cs[k] == Callback(i, true) {
      assert all[k] == cs[k];
    }
  }

  /** The final status of every top-up, for any mixture of callbacks about any number of them. */
  lemma {:induction false} CallbacksDecideStatus(db: Db, cs: seq<Callback>, i: nat)
    requires forall k | 0 <= k < |cs| :: cs[k].row < |db.ledger|
    requires i < |db.ledger| && db.ledger[i].owner in db.balances
    ensures var after := SettleAll(db, cs);
            && db.ledger[i].owner in after.balances
            && after.ledger[i].owner == db.ledger[i].owner
            && after.ledger[i].status == FinalStatus(db.ledger[i].status, cs, i)
  {
    if cs != [] {
      var prefix, c := cs[..|cs| - 1], cs[|cs| - 1];
      assert cs == prefix + [c];
      CallbacksDecideStatus(db, prefix, i);
      MentionsPush(prefix, c, i);
    }
  }

  /**
   One unique reference: the top-up ends COMPLETED and its wallet is credited with its amount exactly
   once iff some callback reports success; otherwise it is FAILED, or untouched without callbacks,
   and nothing is credited.
   */
  lemma {:induction false} CreditedOnce(db: Db, cs: seq<Callback>, i: nat)
    requires i < |db.ledger| && db.ledger[i].owner in db.balances && db.ledger[i].status != Completed
    requires forall k | 0 <= k < |cs| :: cs[k].row == i
    ensures var after := SettleAll(db, cs);
            var e := db.ledger[i];
            if ReportsSuccess(cs, i) then
              && after.ledger[i].status == Completed
              && after.balances == db.balances[e.owner := db.balances[e.owner] + e.amount]
              && after.completed == db.completed + [i]
            else
              && after.ledger[i].status == (if cs == [] then e.status else Failed)
              && after.ledger[i].amount == e.amount && after.ledger[i].owner == e.owner
              && after.balances == db.balances
              && after.completed == db.completed
  {
    if cs != [] {
      var prefix, c := cs[..|cs| - 1], cs[|cs| - 1];
      assert cs == prefix + [c];
      CreditedOnce(db, prefix, i);
      MentionsPush(prefix, c, i);
    }
  }

  /** Each callback was matched, in the ledger it found, to a top-up with reference `ref`. */
  ghost predicate Matched(db: Db, cs: seq<Callback>, ref: Ref)
    requires forall k | 0 <= k < |cs| :: cs[k].row < |db.ledger|
  {
    forall k | 0 <= k < |cs| :: IsTopup(SettleAll(db, cs[..k]).ledger, cs[k].row, ref)
  }

  lemma {:induction false} SettlingKeepsReferences(db: Db, cs: seq<Callback>, i: nat, ref: Ref)
    requires forall k | 0 <= k < |cs| :: cs[k].row < |db.ledger|
    ensures IsTopup(SettleAll(db, cs).ledger, i, ref) == IsTopup(db.ledger, i, ref)
  {
    if cs != [] {
      SettlingKeepsReferences(db, cs[..|cs| - 1], i, ref);
    }
  }

  /** Callbacks that carry one unique reference are all matched to the same row. */
  lemma {:induction false} OneRowPerReference(db: Db, ref: Ref, cs: seq<Callback>, i: nat)
    requires forall k | 0 <= k < |cs| :: cs[k].row < |db.ledger|
    requires RefUnique(db.ledger, ref) && IsTopup(db.ledger, i, ref) && Matched(db, cs, ref)
    ensures forall k | 0 <= k < |cs| :: cs[k].row == i
  {
    forall k | 0 <= k < |cs| ensures cs[k].row == i {
      SettlingKeepsReferences(db, cs[..k], cs[k].row, ref);
    }
  }

  /** COMPLETED is final: no step of the system changes a completed ledger row in any way. */
  lemma {:induction false} CompletedNeverLeft(db: Db, qr: Sync.Qr, a: Action, i: nat)
    requires i < |db.ledger| && db.ledger[i].status == Completed
    ensures i < |Step(db, qr, a).ledger| && Step(db, qr, a).ledger[i] == db.ledger[i]
  {
  }

  // ---- With anything else in between ----

  /** Some step of the run is a callback about row `i`, reporting `success`. */
  predicate Reported(run: seq<Action>, i: nat, success: bool) {
    exists k | 0 <= k < |run| :: run[k] == Webhook(i, success)
  }

  function StatusAfter(before: EntryStatus, run: seq<Action>, i: nat): EntryStatus {
    if before == Completed || Reported(run, i, true) then Completed
    else if Reported(run, i, false) then Failed
    else before
  }

  lemma {:induction false} ReportedPush(run: seq<Action>, a: Action, i: nat, success: bool)
    ensures Reported(run + [a], i, success) <==> Reported(run, i, success) || a == Webhook(i, success)
  {
    var all := run + [a];
    assert all[|run|] == a;
    if k :| 0 <= k < |run| && run[k] == Webhook(i, success) {
      assert all[k] == run[k];
    }
  }

  /** How often row `i` was completed. */
  function Completions(db: Db, i: nat): nat {
    multiset(db.completed)[i]
  }

  /** What a step does to a top-up row: only a callback about the row itself touches it. */
  lemma {:induction false} StepOnTopup(db: Db, qr: Sync.Qr, a: Action, i: nat)
    requires i < |db.ledger| && db.ledger[i].kind == Topup && db.ledger[i].owner in db.balances
    ensures var after := Step(db, qr, a);
            && i < |after.ledger| && after.ledger[i].owner in after.balances
            && after.ledger[i] == db.ledger[i].(status := after.ledger[i].status, balanceAfter := after.ledger[i].balanceAfter)
            && after.ledger[i].status == StatusAfter(db.ledger[i].status, [a], i)
  {
    ReportedPush([], a, i, true);
    ReportedPush([], a, i, false);
    assert [] + [a] == [a];
  }

  /** Steps other than callbacks complete new rows only. */
  lemma {:induction false} OtherStepCompletes(db: Db, qr: Sync.Qr, a: Action)
    requires !a.Webhook?
    ensures var after := Step(db, qr, a);
            after.completed == db.completed || after.completed == db.completed + [|db.ledger|]
  {
  }

  lemma {:induction false} WebhookCompletes(db: Db, qr: Sync.Qr, row: nat, success: bool, i: nat)
    requires i < |db.ledger| && db.ledger[i].kind == Topup && db.ledger[i].owner in db.balances
    ensures var after := Step(db, qr, Webhook(row, success));
            if row == i && success && db.ledger[i].status != Completed then after.completed == db.completed + [i]
            else after.completed == db.completed || (row != i && after.completed == db.completed + [row])
  {
  }

  lemma {:induction false} StepCompletes(db: Db, qr: Sync.Qr, a: Action, i: nat)
    requires i < |db.ledger| && db.ledger[i].kind == Topup && db.ledger[i].owner in db.balances
    ensures Completions(Step(db, qr, a), i)
         == Completions(db, i) + if db.ledger[i].status != Completed && a == Webhook(i, true) then 1 else 0
  {
    if a.Webhook? {
      WebhookCompletes(db, qr, a.row, a.success, i);
    } else {
      OtherStepCompletes(db, qr, a);
    }
  }

  /**
   In any run of the system, a top-up ends COMPLETED iff it was before or some callback about it reports
   success, else FAILED if any callback did arrive; and it is completed once at most, by the first
   success.  Being completed is being credited: each balance is the fold of the completed rows.
   */
  lemma {:induction false} CreditedOnceInRun(db: Db, qr: Sync.Qr, run: seq<Action>, i: nat)
    requires i < |db.ledger| && db.ledger[i].kind == Topup && db.ledger[i].owner in db.balances
    ensures var after := Continue(db, qr, run);
            && i < |after.ledger| && after.ledger[i].owner in after.balances
            && after.ledger[i] == db.ledger[i].(status := after.ledger[i].status, balanceAfter := after.ledger[i].balanceAfter)
            && after.ledger[i].status == StatusAfter(db.ledger[i].status, run, i)
            && Completions(after, i)
            == Completions(db, i) + if db.ledger[i].status != Completed && Reported(run, i, true) then 1 else 0
  {
    if run != [] {
      var prefix, a := run[..|run| - 1], run[|run| - 1];
      var mid := Continue(db, qr, prefix);
      assert run == prefix + [a];
      CreditedOnceInRun(db, qr, prefix, i);
      StepOnTopup(mid, qr, a, i);
      StepCompletes(mid, qr, a, i);
      ReportedPush(prefix, a, i, true);
      ReportedPush(prefix, a, i, false);
      ReportedPush([], a, i, true);
      ReportedPush([], a, i, false);
      assert [] + [a] == [a];
    }
  }
}
