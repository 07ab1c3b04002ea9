/**
 Overlapping refreshes.  A refresh looks at its token before the transaction that rotates it, so the
 token may have been rotated or revoked in between.  Chains never branch back or close, but a login
 keeps a single live token exactly as long as every rotation finds no other one of its login alive.
 */
module Refreshes {
  import opened Wrappers
  import opened Store
  import opened Tokens

  type ProcId(==, !new)

  /** `refreshing` holds the tokens that were found valid and are about to be rotated. */
  datatype System = System(s: State, refreshing: map<ProcId, TokenId>)

  datatype Step =
    | Serial(action: Action)
    | Check(p: ProcId, found: Option<TokenId>, now: int)
    | Rotate(p: ProcId, newId: TokenId, newHash: string, now: int)

  function Checked(sys: System, p: ProcId, id: TokenId, now: int): System
    requires id in sys.s.tokens
  {
    var token := sys.s.tokens[id];
    if token.revokedAt.Some? then sys.(s := sys.s.(tokens := RevokedAll(sys.s.tokens, token.user, now)))
    else if token.expiresAt <= now then sys
    else sys.(refreshing := sys.refreshing[p := id])
  }

  /** The transaction goes through: the row is still there and the new token is new. */
  predicate Rotates(sys: System, step: Step) {
    && step.Rotate? && step.p in sys.refreshing && sys.refreshing[step.p] in sys.s.tokens
    && step.newId !in sys.s.issued && !HashUsed(sys.s.tokens, step.newHash)
  }

  function Apply(sys: System, step: Step): System {
    match step
    case Serial(a) => sys.(s := Tokens.Step(sys.s, a))
    case Check(p, found, now) =>
      if found.None? || found.value !in sys.s.tokens || p in sys.refreshing then sys
      else Checked(sys, p, found.value, now)
    case Rotate(p, newId, newHash, now) =>
      if !Rotates(sys, step) then sys.(refreshing := sys.refreshing - {p})
      else System(Rotated(sys.s, sys.refreshing[p], newId, newHash, now), sys.refreshing - {p})
  }

  function Run(run: seq<Step>): System {
    if run == [] then System(EMPTY_TOKENS, map[]) else Apply(Run(run[..|run| - 1]), run[|run| - 1])
  }

  /** No other token of the same login is alive. */
  predicate Alone(tokens: map<TokenId, Token>, id: TokenId)
    requires id in tokens
  {
    forall x | x in tokens && x != id && tokens[x].login == tokens[id].login :: tokens[x].revokedAt.Some?
  }

  /** The step rotates a token while another one of its login is alive. */
  predicate Forks(sys: System, step: Step) {
    Rotates(sys, step) && !Alone(sys.s.tokens, sys.refreshing[step.p])
  }

  predicate NeverForks(run: seq<Step>) {
    run == [] || (NeverForks(run[..|run| - 1]) && !Forks(Run(run[..|run| - 1]), run[|run| - 1]))
  }

  // ---- Steps ----

  lemma {:induction false} RotatingKeepsChained(s: State, id: TokenId, newId: TokenId, newHash: string, now: int)
    requires Chained(s) && id in s.tokens && newId !in s.issued
    ensures Chained(Rotated(s, id, newId, newHash, now))
  {
    RotatingKeepsInjective(s, id, newId, newHash, now);
    RotatingKeepsForward(s, id, newId, newHash, now);
  }

  /** A rotation leaves one live token of its login iff it finds no other one alive. */
  lemma {:induction false} RotatingKeepsOneIffAlone(s: State, id: TokenId, newId: TokenId, newHash: string, now: int)
    requires Known(s) && OneLiveEnd(s) && id in s.tokens && newId !in s.issued
    ensures OneLiveEnd(Rotated(s, id, newId, newHash, now)) <==> Alone(s.tokens, id)
  {
    var after := Rotated(s, id, newId, newHash, now);
    assert after.tokens[newId].login == s.tokens[id].login && after.tokens[newId].revokedAt.None?;
    forall x | x in s.tokens && x != id ensures x != newId && after.tokens[x] == s.tokens[x] {
    }
  }

  /** A token that is unrevoked when it is rotated is alone. */
  lemma {:induction false} UnrevokedIsAlone(s: State, id: TokenId)
    requires OneLiveEnd(s) && id in s.tokens && s.tokens[id].revokedAt.None?
    ensures Alone(s.tokens, id)
  {
  }

  lemma {:induction false} SerialKeepsChained(s: State, a: Action)
    requires Chained(s)
    ensures Chained(Tokens.Step(s, a))
    ensures OneLiveEnd(s) ==> OneLiveEnd(Tokens.Step(s, a))
  {
    var after := Tokens.Step(s, a);
    if after != s {
      match a
      case Login(u, id, hash, now) => IssuingKeepsChained(s, u, id, hash, now);
      case Present(found, newId, newHash, now) =>
        if s.tokens[found.value].revokedAt.Some? {
          WeakeningKeepsChained(s, after.tokens);
        } else {
          RotatingKeepsChained(s, found.value, newId, newHash, now);
          if OneLiveEnd(s) {
            UnrevokedIsAlone(s, found.value);
            RotatingKeepsOneIffAlone(s, found.value, newId, newHash, now);
          }
        }
      case _ => WeakeningKeepsChained(s, after.tokens);
    }
  }

  lemma {:induction false} StepKeepsChained(sys: System, step: Step)
    requires Chained(sys.s)
    ensures Chained(Apply(sys, step).s)
  {
    match step
    case Serial(a) => SerialKeepsChained(sys.s, a);
    case Check(_, _, _) => WeakeningKeepsChained(sys.s, Apply(sys, step).s.tokens);
    case Rotate(p, newId, newHash, now) =>
      if Rotates(sys, step) {
        RotatingKeepsChained(sys.s, sys.refreshing[p], newId, newHash, now);
      }
  }

  lemma {:induction false} StepKeepsOneIff(sys: System, step: Step)
    requires Chained(sys.s) && OneLiveEnd(sys.s)
    ensures OneLiveEnd(Apply(sys, step).s) <==> !Forks(sys, step)
  {
    match step
    case Serial(a) => SerialKeepsChained(sys.s, a);
    case Check(_, _, _) => WeakeningKeepsChained(sys.s, Apply(sys, step).s.tokens);
    case Rotate(p, newId, newHash, now) =>
      if Rotates(sys, step) {
        RotatingKeepsOneIffAlone(sys.s, sys.refreshing[p], newId, newHash, now);
      }
  }

  // ---- The theorems ----

  /** Under every interleaving replacement is injective and leads to younger tokens of the same login. */
  lemma {:induction false} RunChained(run: seq<Step>)
    ensures Chained(Run(run).s)
  {
    if run != [] {
      RunChained(run[..|run| - 1]);
      StepKeepsChained(Run(run[..|run| - 1]), run[|run| - 1]);
    }
  }

  lemma {:induction false} OneWithoutForks(run: seq<Step>)
    requires NeverForks(run)
    ensures OneLiveEnd(Run(run).s)
  {
    if run != [] {
      var prefix := run[..|run| - 1];
      OneWithoutForks(prefix);
      RunChained(prefix);
      StepKeepsOneIff(Run(prefix), run[|run| - 1]);
    }
  }

  lemma {:induction false} NeverForksPrefix(run: seq<Step>, n: nat)
    requires n <= |run| && NeverForks(run)
    ensures NeverForks(run[..n])
  {
    if n < |run| {
      NeverForksPrefix(run[..|run| - 1], n);
      assert run[..|run| - 1][..n] == run[..n];
    } else {
      assert run[..n] == run;
    }
  }

  lemma {:induction false} ForkLeavesTwo(run: seq<Step>) returns (n: nat)
    requires !NeverForks(run)
    ensures n <= |run| && !OneLiveEnd(Run(run[..n]).s)
  {
    var prefix := run[..|run| - 1];
    n := |run|;
    assert run[..n] == run;
    if NeverForks(prefix) {
      OneWithoutForks(prefix);
      RunChained(prefix);
      StepKeepsOneIff(Run(prefix), run[|run| - 1]);
    } else {
      n := ForkLeavesTwo(prefix);
      assert run[..n] == prefix[..n];
    }
  }

  /** All along an interleaving each login has one live token at most, iff no rotation of it forks. */
  lemma {:induction false} OneLiveEndIffNeverForks(run: seq<Step>)
    ensures (forall n | 0 <= n <= |run| :: OneLiveEnd(Run(run[..n]).s)) <==> NeverForks(run)
  {
    if NeverForks(run) {
      forall n | 0 <= n <= |run| ensures OneLiveEnd(Run(run[..n]).s) {
        NeverForksPrefix(run, n);
        OneWithoutForks(run[..n]);
      }
    } else {
      var n := ForkLeavesTwo(run);
    }
  }

  // ---- One refresh at a time ----

  /** A check and a rotation with nothing in between are a whole refresh. */
  lemma {:induction false} RefreshRefines(
    sys: System, p: ProcId, found: Option<TokenId>, newId: TokenId, newHash: string, now: int)
    requires p !in sys.refreshing && newId !in sys.s.issued && (found.Some? ==> found.value in sys.s.tokens)
    ensures var after := Apply(Apply(sys, Check(p, found, now)), Rotate(p, newId, newHash, now));
            && after.s == Refresh(sys.s, found, newId, newHash, now).after
            && after.refreshing == sys.refreshing
  {
    assert sys.refreshing - {p} == sys.refreshing;
    if found.Some? {
      assert sys.refreshing[p := found.value] - {p} == sys.refreshing;
    }
  }

  // ---- Two refreshes of one token ----

  lemma {:induction false} RunPush(run: seq<Step>, step: Step)
    ensures Run(run + [step]) == Apply(Run(run), step)
  {
    assert (run + [step])[..|run|] == run;
  }

  lemma {:induction false} BothRotate(sys: System, id: TokenId, p: ProcId, q: ProcId, a: TokenId, b: TokenId, x: string, y: string)
    requires p != q && sys.refreshing == map[p := id, q := id] && sys.s.issued == {id} && sys.s.tokens.Keys == {id}
    requires a != id && b != id && a != b && x != y && x != sys.s.tokens[id].hash && y != sys.s.tokens[id].hash
    ensures var tokens := Apply(Apply(sys, Rotate(p, a, x, 1)), Rotate(q, b, y, 1)).s.tokens;
            && a in tokens && b in tokens && tokens[a].login == tokens[b].login == sys.s.tokens[id].login
            && tokens[a].revokedAt.None? && tokens[b].revokedAt.None?
  {
    var once := Apply(sys, Rotate(p, a, x, 1));
    assert once.s.tokens.Keys == {id, a} && once.s.tokens[a].hash == x;
    assert once.s.tokens[id].hash == sys.s.tokens[id].hash;
  }

  /** Two refreshes that both looked at the token before either rotated it leave two live tokens. */
  lemma {:induction false} TwoLiveTokens(
    u: UserId, id: TokenId, a: TokenId, b: TokenId, p: ProcId, q: ProcId, h: string, x: string, y: string)
    requires a != id && b != id && a != b && p != q && x != y && x != h && y != h
    ensures var tokens := Run([Serial(Login(u, id, h, 0))] + [Check(p, Some(id), 1)] + [Check(q, Some(id), 1)]
                              + [Rotate(p, a, x, 1)] + [Rotate(q, b, y, 1)]).s.tokens;
            && a in tokens && b in tokens && tokens[a].login == tokens[b].login
            && tokens[a].revokedAt.None? && tokens[b].revokedAt.None?
  {
    var r1 := [Serial(Login(u, id, h, 0))];
    var r2 := r1 + [Check(p, Some(id), 1)];
    var r3 := r2 + [Check(q, Some(id), 1)];
    RunPush([], r1[0]);
    assert [] + [r1[0]] == r1;
    RunPush(r1, Check(p, Some(id), 1));
    RunPush(r2, Check(q, Some(id), 1));
    BothRotate(Run(r3), id, p, q, a, b, x, y);
    RunPush(r3, Rotate(p, a, x, 1));
    RunPush(r3 + [Rotate(p, a, x, 1)], Rotate(q, b, y, 1));
  }
}
