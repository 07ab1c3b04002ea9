/**
 Payment callbacks as they arrive: bodies and signatures, authentic or forged, about any top-up.  What
 becomes of a top-up with a unique reference is told from the literal status words.
 */
module Callbacks {
  import opened Wrappers
  import opened Store
  import opened Wallet

  datatype Message = Message(body: string, signature: Option<string>)

  /** `states` are the tables before the first and after each message. */
  ghost predicate Received(provider: Provider, messages: seq<Message>, states: seq<Db>) {
    && |states| == |messages| + 1
    && forall k | 0 <= k < |messages| :: Step(provider, messages[k], states[k], states[k + 1])
  }

  ghost predicate Step(provider: Provider, m: Message, before: Db, after: Db) {
    exists row, r :: Handled(before, provider, m.body, m.signature, row, after, r)
  }

  /** The message is authentic and carries the reference `ref`. */
  predicate About(provider: Provider, m: Message, ref: Ref) {
    && m.signature.Some? && provider.verify(m.body, m.signature.value)
    && provider.parse(m.body).Some? && provider.parse(m.body).value.ref == Some(ref)
  }

  /** It is, and its status says that the payment went through. */
  predicate Pays(provider: Provider, m: Message, ref: Ref) {
    && About(provider, m, ref)
    && (provider.parse(m.body).value.status == "success" || provider.parse(m.body).value.status == "completed")
  }

  predicate SomePays(provider: Provider, messages: seq<Message>, ref: Ref) {
    exists k | 0 <= k < |messages| :: Pays(provider, messages[k], ref)
  }

  predicate SomeAbout(provider: Provider, messages: seq<Message>, ref: Ref) {
    exists k | 0 <= k < |messages| :: About(provider, messages[k], ref)
  }

  /** Row `i` is a top-up, and the only one with reference `ref`. */
  ghost predicate OnlyTopup(ledger: seq<Entry>, i: nat, ref: Ref) {
    && i < |ledger| && ledger[i].kind == Topup && ledger[i].externalRef == Some(ref)
    && forall j | 0 <= j < |ledger| && ledger[j].kind == Topup && ledger[j].externalRef == Some(ref) :: j == i
  }

  /** What one message does to a top-up with a unique reference. */
  lemma {:induction false} OneMessage(provider: Provider, m: Message, db: Db, after: Db, i: nat, ref: Ref)
    requires Step(provider, m, db, after) && OnlyTopup(db.ledger, i, ref) && db.ledger[i].owner in db.balances
    ensures OnlyTopup(after.ledger, i, ref) && after.balances.Keys == db.balances.Keys
    ensures var e, e' := db.ledger[i], after.ledger[i];
            && e' == e.(status := e'.status, balanceAfter := e'.balanceAfter)
            && e'.status == (if e.status == Completed || Pays(provider, m, ref) then Completed
                             else if About(provider, m, ref) then Failed
                             else e.status)
    ensures About(provider, m, ref) ==>
      after.balances == if db.ledger[i].status != Completed && Pays(provider, m, ref)
                        then db.balances[db.ledger[i].owner := db.balances[db.ledger[i].owner] + db.ledger[i].amount]
                        else db.balances
    ensures db.ledger[i].status != Completed && Pays(provider, m, ref) ==>
      after.ledger[i].balanceAfter == Some(after.balances[db.ledger[i].owner])
    ensures !About(provider, m, ref) ==> after.ledger[i] == db.ledger[i]
  {
    var row, r :| Handled(db, provider, m.body, m.signature, row, after, r);
    assert IsTopup(db.ledger, i, ref);
    forall j | 0 <= j < |after.ledger| && after.ledger[j].kind == Topup && after.ledger[j].externalRef == Some(ref)
      ensures j == i
    {
      assert db.ledger[j].kind == Topup && db.ledger[j].externalRef == Some(ref);
    }
  }

  /**
   A top-up ends COMPLETED iff it was before or some authentic message with its reference has the status
   "success" or "completed"; otherwise FAILED iff any authentic message with its reference arrived.
   */
  lemma {:induction false} MessagesDecideStatus(
    provider: Provider, messages: seq<Message>, states: seq<Db>, i: nat, ref: Ref)
    requires Received(provider, messages, states)
    requires OnlyTopup(states[0].ledger, i, ref) && states[0].ledger[i].owner in states[0].balances
    ensures var before, after := states[0], states[|messages|];
            && OnlyTopup(after.ledger, i, ref) && after.balances.Keys == before.balances.Keys
            && after.ledger[i].owner == before.ledger[i].owner && after.ledger[i].amount == before.ledger[i].amount
            && after.ledger[i].status ==
                 (if before.ledger[i].status == Completed || SomePays(provider, messages, ref) then Completed
                  else if SomeAbout(provider, messages, ref) then Failed
                  else before.ledger[i].status)
  {
    if messages != [] {
      var n := |messages| - 1;
      MessagesDecideStatus(provider, messages[..n], states[..n + 1], i, ref);
      OneMessage(provider, messages[n], states[n], states[n + 1], i, ref);
      SomePush(provider, messages[..n], messages[n], ref);
      assert messages == messages[..n] + [messages[n]];
    }
  }

  lemma {:induction false} SomePush(provider: Provider, messages: seq<Message>, m: Message, ref: Ref)
    ensures SomePays(provider, messages + [m], ref) <==> SomePays(provider, messages, ref) || Pays(provider, m, ref)
    ensures SomeAbout(provider, messages + [m], ref) <==> SomeAbout(provider, messages, ref) || About(provider, m, ref)
  {
    var all := messages + [m];
    assert all[|messages|] == m;
    if k :| 0 <= k < |messages| && Pays(provider, messages[k], ref) {
      assert all[k] == messages[k];
    }
    if k :| 0 <= k < |messages| && About(provider, messages[k], ref) {
      assert all[k] == messages[k];
    }
  }

  /**
   When all authentic messages that carry a reference carry this one, the wallet is credited with the top-up's amount
   exactly once iff one of them says "success" or "completed", and no other wallet changes.
   */
  lemma {:induction false} MessagesCreditOnce(
    provider: Provider, messages: seq<Message>, states: seq<Db>, i: nat, ref: Ref)
    requires Received(provider, messages, states)
    requires OnlyTopup(states[0].ledger, i, ref) && states[0].ledger[i].owner in states[0].balances
    requires states[0].ledger[i].status != Completed
    requires forall k, other | 0 <= k < |messages| && About(provider, messages[k], other) :: other == ref
    ensures var before, after, e := states[0], states[|messages|], states[0].ledger[i];
            after.balances == if SomePays(provider, messages, ref)
                              then before.balances[e.owner := before.balances[e.owner] + e.amount]
                              else before.balances
  {
    if messages != [] {
      var n := |messages| - 1;
      MessagesCreditOnce(provider, messages[..n], states[..n + 1], i, ref);
      MessagesDecideStatus(provider, messages[..n], states[..n + 1], i, ref);
      OneMessage(provider, messages[n], states[n], states[n + 1], i, ref);
      if !About(provider, messages[n], ref) {
        OthersChangeNothing(provider, messages[n], states[n], states[n + 1]);
      }
      SomePush(provider, messages[..n], messages[n], ref);
      assert messages == messages[..n] + [messages[n]];
    }
  }

  /** Messages without a good signature, or without a reference to a stored top-up, change nothing. */
  lemma {:induction false} OthersChangeNothing(provider: Provider, m: Message, db: Db, after: Db)
    requires Step(provider, m, db, after)
    requires forall ref, i: nat :: !(About(provider, m, ref) && i < |db.ledger|
                                     && db.ledger[i].kind == Topup && db.ledger[i].externalRef == Some(ref))
    ensures after == db
  {
    var row, r :| Handled(db, provider, m.body, m.signature, row, after, r);
    if Authentic(provider, m.body, m.signature) && provider.parse(m.body).Some? {
      var payload := provider.parse(m.body).value;
      if payload.ref.Some? {
        assert About(provider, m, payload.ref.value);
        assert forall i: nat :: !IsTopup(db.ledger, i, payload.ref.value);
      }
    }
  }

  /** What the provider is told, in the order of the checks. */
  lemma {:induction false} EachReply(provider: Provider, m: Message, db: Db, row: Option<nat>, after: Db, r: Result<(), Error>)
    requires Handled(db, provider, m.body, m.signature, row, after, r)
    ensures r == Failure(BadSignature) <==> m.signature.None? || !provider.verify(m.body, m.signature.value)
    ensures r == Failure(MalformedPayload) <==>
      m.signature.Some? && provider.verify(m.body, m.signature.value) && provider.parse(m.body).None?
    ensures r.Failure? ==> r.error in {BadSignature, MalformedPayload, WalletNotFound} && after == db
    ensures r == Failure(WalletNotFound) ==>
      exists ref, i: nat :: Pays(provider, m, ref) && i < |db.ledger| && db.ledger[i].externalRef == Some(ref)
                            && db.ledger[i].status != Completed && db.ledger[i].owner !in db.balances
  {
    if r == Failure(WalletNotFound) {
      var ref := provider.parse(m.body).value.ref.value;
      assert Pays(provider, m, ref) && IsTopup(db.ledger, row.value, ref);
    }
  }
}
