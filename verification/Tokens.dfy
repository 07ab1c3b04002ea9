/**
 Refresh tokens: issued at login, rotated at every use, revoked by logout, password reset or the
 presentation of a token that was already rotated, and deleted a week after they expired.

 `login` and `born` are history columns: the login that a token descends from, and its place in the
 order of creation.  `issued` remembers all ids ever given out; random ids never repeat.
 */
module Tokens {
  import opened Wrappers
  import opened Store

  type TokenId(==, !new)

  const REFRESH_TTL_MS := 7 * 24 * 60 * 60 * 1000
  const WEEK_MS := 7 * 24 * 60 * 60 * 1000

  datatype Token = Token(
    user: UserId,
    hash: string,
    expiresAt: int,
    revokedAt: Option<int>,
    replacedBy: Option<TokenId>,
    login: nat,
    born: nat)

  datatype State = State(tokens: map<TokenId, Token>, issued: set<TokenId>, logins: nat, count: nat)

  datatype TokenError = InvalidToken | ReplayDetected | TokenHasExpired | DuplicateHash

  const EMPTY_TOKENS := State(map[], {}, 0, 0)

  predicate HashUsed(tokens: map<TokenId, Token>, hash: string) {
    exists id | id in tokens :: tokens[id].hash == hash
  }

  // ---- The operations ----

  function Issued(s: State, u: UserId, id: TokenId, hash: string, now: int): State {
    var token := Token(u, hash, now + REFRESH_TTL_MS, None, None, s.logins, s.count);
    State(s.tokens[id := token], s.issued + {id}, s.logins + 1, s.count + 1)
  }

  function RevokedAll(tokens: map<TokenId, Token>, u: UserId, now: int): map<TokenId, Token> {
    map id | id in tokens ::
      if tokens[id].user == u && tokens[id].revokedAt.None? then tokens[id].(revokedAt := Some(now)) else tokens[id]
  }

  function RevokedOne(tokens: map<TokenId, Token>, id: TokenId, now: int): map<TokenId, Token>
    requires id in tokens
  {
    if tokens[id].revokedAt.None? then tokens[id := tokens[id].(revokedAt := Some(now))] else tokens
  }

  function Rotated(s: State, id: TokenId, newId: TokenId, newHash: string, now: int): State
    requires id in s.tokens
  {
    var old' := s.tokens[id];
    var next := Token(old'.user, newHash, now + REFRESH_TTL_MS, None, None, old'.login, s.count);
    State(s.tokens[newId := next][id := old'.(revokedAt := Some(now), replacedBy := Some(newId))],
          s.issued + {newId}, s.logins, s.count + 1)
  }

  datatype Refreshed = Refreshed(after: State, error: Option<TokenError>)

  /** `found` is the stored token whose hash was presented, if there is one. */
  function Refresh(s: State, found: Option<TokenId>, newId: TokenId, newHash: string, now: int): Refreshed
    requires found.Some? ==> found.value in s.tokens
  {
    if found.None? then Refreshed(s, Some(InvalidToken))
    else
      var token := s.tokens[found.value];
      if token.revokedAt.Some? then
        Refreshed(s.(tokens := RevokedAll(s.tokens, token.user, now)), Some(ReplayDetected))
      else if token.expiresAt <= now then Refreshed(s, Some(TokenHasExpired))
      else if HashUsed(s.tokens, newHash) then Refreshed(s, Some(DuplicateHash))
      else Refreshed(Rotated(s, found.value, newId, newHash, now), None)
  }

  function CleanedUp(tokens: map<TokenId, Token>, now: int): map<TokenId, Token> {
    map id | id in tokens && tokens[id].expiresAt >= now - WEEK_MS :: tokens[id]
  }

  // ---- Runs ----

  datatype Action =
    | Login(u: UserId, id: TokenId, hash: string, now: int)
    | Present(found: Option<TokenId>, newId: TokenId, newHash: string, now: int)
    | Logout(found: Option<TokenId>, now: int)
    | Reset(u: UserId, now: int)
    | Cleanup(now: int)

  function Step(s: State, a: Action): State {
    match a
    case Login(u, id, hash, now) =>
      if id in s.issued || HashUsed(s.tokens, hash) then s else Issued(s, u, id, hash, now)
    case Present(found, newId, newHash, now) =>
      if (found.Some? && found.value !in s.tokens) || newId in s.issued then s
      else Refresh(s, found, newId, newHash, now).after
    case Logout(found, now) =>
      if found.None? || found.value !in s.tokens then s
      else s.(tokens := RevokedOne(s.tokens, found.value, now))
    case Reset(u, now) => s.(tokens := RevokedAll(s.tokens, u, now))
    case Cleanup(now) => s.(tokens := CleanedUp(s.tokens, now))
  }

  function Run(run: seq<Action>): State {
    if run == [] then EMPTY_TOKENS else Step(Run(run[..|run| - 1]), run[|run| - 1])
  }

  // ---- The invariant ----

  ghost predicate Known(s: State) {
    forall id | id in s.tokens ::
      var t := s.tokens[id];
      && id in s.issued && t.born < s.count && t.login < s.logins
      && (t.replacedBy.Some? ==> t.replacedBy.value in s.issued && t.revokedAt.Some?)
  }

  /** No two stored tokens were replaced by the same one. */
  ghost predicate Injective(s: State) {
    forall a, b | a in s.tokens && b in s.tokens && a != b && s.tokens[a].replacedBy.Some? ::
      s.tokens[a].replacedBy != s.tokens[b].replacedBy
  }

  /** A replacement is younger and belongs to the same login and user. */
  ghost predicate Forward(s: State) {
    forall a | a in s.tokens && s.tokens[a].replacedBy.Some? && s.tokens[a].replacedBy.value in s.tokens ::
      var next := s.tokens[s.tokens[a].replacedBy.value];
      next.born > s.tokens[a].born && next.login == s.tokens[a].login && next.user == s.tokens[a].user
  }

  /** An unrevoked token is the youngest of its login, and the login's only unrevoked one. */
  ghost predicate OneLiveEnd(s: State) {
    forall a, b | a in s.tokens && b in s.tokens && a != b
               && s.tokens[a].login == s.tokens[b].login && s.tokens[a].revokedAt.None? ::
      s.tokens[b].revokedAt.Some? && s.tokens[b].born < s.tokens[a].born
  }

  ghost predicate Chained(s: State) {
    Known(s) && Injective(s) && Forward(s)
  }

  ghost predicate Linear(s: State) {
    Chained(s) && OneLiveEnd(s)
  }

  /** Revoking or deleting tokens cannot break a chain. */
  lemma {:induction false} WeakeningKeepsChained(s: State, tokens: map<TokenId, Token>)
    requires Chained(s) && tokens.Keys <= s.tokens.Keys
    requires forall id | id in tokens ::
      && tokens[id] == s.tokens[id].(revokedAt := tokens[id].revokedAt)
      && (s.tokens[id].revokedAt.Some? ==> tokens[id].revokedAt.Some?)
    ensures Chained(s.(tokens := tokens))
    ensures OneLiveEnd(s) ==> OneLiveEnd(s.(tokens := tokens))
  {
  }

  lemma {:induction false} IssuingKeepsChained(s: State, u: UserId, id: TokenId, hash: string, now: int)
    requires Chained(s) && id !in s.issued
    ensures Chained(Issued(s, u, id, hash, now))
    ensures OneLiveEnd(s) ==> OneLiveEnd(Issued(s, u, id, hash, now))
  {
  }

  lemma {:induction false} RotatingKeepsInjective(s: State, id: TokenId, newId: TokenId, newHash: string, now: int)
    requires Known(s) && Injective(s) && id in s.tokens && newId !in s.issued
    ensures Injective(Rotated(s, id, newId, newHash, now)) && Known(Rotated(s, id, newId, newHash, now))
  {
  }

  lemma {:induction false} RotatingKeepsForward(s: State, id: TokenId, newId: TokenId, newHash: string, now: int)
    requires Known(s) && Forward(s) && id in s.tokens && newId !in s.issued
    ensures Forward(Rotated(s, id, newId, newHash, now))
  {
  }

  /** The new token takes over as the live end of its login. */
  lemma {:induction false} RotatingMovesTheEnd(s: State, id: TokenId, newId: TokenId, newHash: string, now: int)
    requires Known(s) && OneLiveEnd(s) && id in s.tokens && s.tokens[id].revokedAt.None? && newId !in s.issued
    ensures OneLiveEnd(Rotated(s, id, newId, newHash, now))
  {
  }

  lemma {:induction false} RotatingKeepsLinear(s: State, id: TokenId, newId: TokenId, newHash: string, now: int)
    requires Linear(s) && id in s.tokens && s.tokens[id].revokedAt.None? && newId !in s.issued
    ensures Linear(Rotated(s, id, newId, newHash, now))
  {
    RotatingKeepsInjective(s, id, newId, newHash, now);
    RotatingKeepsForward(s, id, newId, newHash, now);
    RotatingMovesTheEnd(s, id, newId, newHash, now);
  }

  lemma {:induction false} StepKeepsLinear(s: State, a: Action)
    requires Linear(s)
    ensures Linear(Step(s, a))
  {
    var after := Step(s, a);
    if after != s {
      match a
      case Login(u, id, hash, now) => IssuingKeepsChained(s, u, id, hash, now);
      case Present(found, newId, newHash, now) =>
        if s.tokens[found.value].revokedAt.Some? {
          WeakeningKeepsChained(s, after.tokens);
        } else {
          RotatingKeepsLinear(s, found.value, newId, newHash, now);
        }
      case _ => WeakeningKeepsChained(s, after.tokens);
    }
  }

  /** Chains stay linear in every reachable state. */
  lemma {:induction false} RunLinear(run: seq<Action>)
    ensures Linear(Run(run))
  {
    if run != [] {
      RunLinear(run[..|run| - 1]);
      StepKeepsLinear(Run(run[..|run| - 1]), run[|run| - 1]);
    }
  }

  /** The unique index on the hash: a presented token names at most one row. */
  ghost predicate HashesUnique(tokens: map<TokenId, Token>) {
    forall a, b | a in tokens && b in tokens && a != b :: tokens[a].hash != tokens[b].hash
  }

  lemma {:induction false} StepKeepsHashes(s: State, a: Action)
    requires HashesUnique(s.tokens) && Known(s)
    ensures HashesUnique(Step(s, a).tokens)
  {
  }

  lemma {:induction false} RunHashesUnique(run: seq<Action>)
    ensures HashesUnique(Run(run).tokens)
  {
    if run != [] {
      RunHashesUnique(run[..|run| - 1]);
      RunLinear(run[..|run| - 1]);
      StepKeepsHashes(Run(run[..|run| - 1]), run[|run| - 1]);
    }
  }

  // ---- The theorems ----

  /** Following replacements through stored tokens. */
  predicate Path(tokens: map<TokenId, Token>, p: seq<TokenId>) {
    && (forall i | 0 <= i < |p| :: p[i] in tokens)
    && forall i | 0 <= i < |p| - 1 :: tokens[p[i]].replacedBy == Some(p[i + 1])
  }

  lemma {:induction false} PathsGrow(s: State, p: seq<TokenId>)
    requires Linear(s) && Path(s.tokens, p) && |p| >= 2
    ensures s.tokens[p[0]].born < s.tokens[p[|p| - 1]].born
    ensures s.tokens[p[0]].login == s.tokens[p[|p| - 1]].login
  {
    var n := |p| - 1;
    assert s.tokens[p[n - 1]].replacedBy == Some(p[n]);
    if |p| > 2 {
      PathsGrow(s, p[..n]);
    }
  }

  /** No token is, through any number of rotations, its own replacement. */
  lemma {:induction false} Acyclic(run: seq<Action>, p: seq<TokenId>)
    requires Path(Run(run).tokens, p) && |p| >= 2
    ensures p[0] != p[|p| - 1]
  {
    RunLinear(run);
    PathsGrow(Run(run), p);
  }

  /** A token from which an unrevoked one is reached has been revoked itself: only ends are live. */
  lemma {:induction false} OnlyEndsAreLive(run: seq<Action>, p: seq<TokenId>)
    requires Path(Run(run).tokens, p) && |p| >= 2
    ensures Run(run).tokens[p[0]].revokedAt.Some?
    ensures forall id | id in Run(run).tokens && id != p[|p| - 1]
                     && Run(run).tokens[id].login == Run(run).tokens[p[0]].login
                     && Run(run).tokens[p[|p| - 1]].revokedAt.None? :: Run(run).tokens[id].revokedAt.Some?
  {
    RunLinear(run);
    PathsGrow(Run(run), p);
    assert Run(run).tokens[p[0]].replacedBy == Some(p[1]);
  }

  /** Presenting a stored token that was already rotated leaves its user without a live token. */
  lemma {:induction false} ReplayRevokesUser(run: seq<Action>, id: TokenId, newId: TokenId, newHash: string, now: int)
    requires id in Run(run).tokens && Run(run).tokens[id].replacedBy.Some?
    ensures var s := Run(run);
            var out := Refresh(s, Some(id), newId, newHash, now);
            && out.error == Some(ReplayDetected)
            && out.after.tokens.Keys == s.tokens.Keys
            && forall x | x in out.after.tokens && out.after.tokens[x].user == s.tokens[id].user ::
                 out.after.tokens[x].revokedAt.Some?
  {
    RunLinear(run);
  }

  /** A successful refresh moves the one live token of its login from the old token to the new. */
  lemma {:induction false} RefreshMovesTheEnd(run: seq<Action>, id: TokenId, newId: TokenId, newHash: string, now: int)
    requires id in Run(run).tokens && newId !in Run(run).issued
    requires Refresh(Run(run), Some(id), newId, newHash, now).error == None
    ensures var s := Run(run);
            var after := Refresh(s, Some(id), newId, newHash, now).after;
            forall x | x in after.tokens && after.tokens[x].login == s.tokens[id].login ::
              after.tokens[x].revokedAt.None? <==> x == newId
  {
    RunLinear(run);
    RotatingKeepsLinear(Run(run), id, newId, newHash, now);
  }

  // ---- The service ----

  class TokenStore {
    var tokens: map<TokenId, Token>
    ghost var issued: set<TokenId>
    var logins: nat
    var count: nat

    ghost function Contents(): State
      reads this
    {
      State(tokens, issued, logins, count)
    }

    constructor ()
      ensures Contents() == EMPTY_TOKENS
    {
      tokens, logins, count := map[], 0, 0;
      issued := {};
    }

    method FindByHash(hash: string) returns (found: Option<TokenId>)
      ensures found.Some? ==> found.value in tokens && tokens[found.value].hash == hash
      ensures found.None? ==> !HashUsed(tokens, hash)
    {
      var rest := tokens.Keys;
      while rest != {}
        invariant rest <= tokens.Keys
        invariant forall id | id in tokens && id !in rest :: tokens[id].hash != hash
        decreases rest
      {
        var id :| id in rest;
        if tokens[id].hash == hash {
          return Some(id);
        }
        rest := rest - {id};
      }
      found := None;
    }

    method IssueTokens(u: UserId, id: TokenId, hash: string, now: int) returns (error: Option<TokenError>)
      requires id !in issued
      modifies this
      ensures Contents() == Step(old(Contents()), Login(u, id, hash, now))
      ensures error == if HashUsed(old(tokens), hash) then Some(DuplicateHash) else None
    {
      var clash := FindByHash(hash);
      if clash.Some? {
        return Some(DuplicateHash);
      }
      tokens := tokens[id := Token(u, hash, now + REFRESH_TTL_MS, None, None, logins, count)];
      issued := issued + {id};
      logins, count := logins + 1, count + 1;
      error := None;
    }

    method RevokeAll(u: UserId, now: int)
      modifies this`tokens
      ensures tokens == RevokedAll(old(tokens), u, now)
    {
      tokens := map id | id in tokens ::
        if tokens[id].user == u && tokens[id].revokedAt.None? then tokens[id].(revokedAt := Some(now)) else tokens[id];
    }

    /** `found` is the stored token that the presented hash belongs to. */
    method RefreshToken(hash: string, newId: TokenId, newHash: string, now: int)
      returns (error: Option<TokenError>, ghost found: Option<TokenId>)
      requires newId !in issued && newId !in tokens
      modifies this
      ensures found.Some? ==> found.value in old(tokens) && old(tokens)[found.value].hash == hash
      ensures found.None? ==> !HashUsed(old(tokens), hash)
      ensures Refreshed(Contents(), error) == Refresh(old(Contents()), found, newId, newHash, now)
    {
      var match' := FindByHash(hash);
      found := match';
      if match'.None? {
        return Some(InvalidToken), found;
      }
      var id := match'.value;
      var token := tokens[id];
      if token.revokedAt.Some? {
        RevokeAll(token.user, now);
        return Some(ReplayDetected), found;
      }
      if token.expiresAt <= now {
        return Some(TokenHasExpired), found;
      }
      var before := tokens;
      tokens := tokens[id := token.(revokedAt := Some(now))];
      var clash := FindByHash(newHash);
      if clash.Some? {
        assert HashUsed(before, newHash) by {
          assert before[clash.value].hash == newHash;
        }
        tokens := before;
        return Some(DuplicateHash), found;
      }
      tokens := tokens[newId := Token(token.user, newHash, now + REFRESH_TTL_MS, None, None, token.login, count)];
      tokens := tokens[id := tokens[id].(replacedBy := Some(newId))];
      issued := issued + {newId};
      count := count + 1;
      assert !HashUsed(before, newHash) by {
        if x :| x in before && before[x].hash == newHash {
          assert x in before[id := token.(revokedAt := Some(now))];
        }
      }
      assert Contents().tokens == Rotated(old(Contents()), id, newId, newHash, now).tokens;
      error := None;
    }

    method LogoutToken(hash: string, now: int) returns (ghost found: Option<TokenId>)
      modifies this
      ensures found.Some? ==> found.value in old(tokens) && old(tokens)[found.value].hash == hash
      ensures found.None? ==> !HashUsed(old(tokens), hash)
      ensures Contents() == Step(old(Contents()), Logout(found, now))
    {
      var match' := FindByHash(hash);
      found := match';
      if match'.Some? && tokens[match'.value].revokedAt.None? {
        tokens := tokens[match'.value := tokens[match'.value].(revokedAt := Some(now))];
      }
    }

    method ResetPassword(u: UserId, now: int)
      modifies this
      ensures Contents() == Step(old(Contents()), Reset(u, now))
    {
      RevokeAll(u, now);
    }

    method CleanupExpiredTokens(now: int)
      modifies this
      ensures Contents() == Step(old(Contents()), Cleanup(now))
    {
      tokens := map id | id in tokens && tokens[id].expiresAt >= now - WEEK_MS :: tokens[id];
    }
  }
}
