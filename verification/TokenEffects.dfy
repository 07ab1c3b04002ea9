/** Refresh tokens told from the columns: which presented tokens are refused, and which rows each operation touches. */
module TokenEffects {
  import opened Wrappers
  import opened Store
  import opened Tokens

  const SEVEN_DAYS_MS := 604800000

  predicate HashIsFree(tokens: map<TokenId, Token>, hash: string) {
    forall id | id in tokens :: tokens[id].hash != hash
  }

  /** A presented token is refused as unknown, as replayed or as expired, in this order. */
  lemma {:induction false} RefreshAnswer(s: State, found: Option<TokenId>, newId: TokenId, newHash: string, now: int)
    requires found.Some? ==> found.value in s.tokens
    ensures var out := Refresh(s, found, newId, newHash, now);
            && (out.error == Some(InvalidToken) <==> found.None?)
            && (out.error == Some(ReplayDetected) <==> found.Some? && s.tokens[found.value].revokedAt.Some?)
            && (out.error == Some(TokenHasExpired) <==>
                  found.Some? && s.tokens[found.value].revokedAt.None? && s.tokens[found.value].expiresAt <= now)
            && (out.error == None <==>
                  && found.Some? && s.tokens[found.value].revokedAt.None? && s.tokens[found.value].expiresAt > now
                  && HashIsFree(s.tokens, newHash))
  {
  }

  /** A refresh that succeeds touches two rows: the old one and a new one that lives for seven days. */
  lemma {:induction false} RefreshEffect(s: State, id: TokenId, newId: TokenId, newHash: string, now: int)
    requires id in s.tokens && newId !in s.tokens && Refresh(s, Some(id), newId, newHash, now).error == None
    ensures var tokens := Refresh(s, Some(id), newId, newHash, now).after.tokens;
            && tokens.Keys == s.tokens.Keys + {newId}
            && tokens[id] == s.tokens[id].(revokedAt := Some(now), replacedBy := Some(newId))
            && tokens[newId].user == s.tokens[id].user && tokens[newId].hash == newHash
            && tokens[newId].expiresAt == now + SEVEN_DAYS_MS
            && tokens[newId].revokedAt == None && tokens[newId].replacedBy == None
            && forall x | x in s.tokens && x != id :: tokens[x] == s.tokens[x]
  {
  }

  /** A refresh that fails writes nothing, unless a replay was detected. */
  lemma {:induction false} FailedRefreshEffect(s: State, found: Option<TokenId>, newId: TokenId, newHash: string, now: int)
    requires found.Some? ==> found.value in s.tokens
    ensures var out := Refresh(s, found, newId, newHash, now);
            && (out.error.Some? && out.error != Some(ReplayDetected) ==> out.after == s)
            && (out.error == Some(ReplayDetected) ==>
                  Revoked(s.tokens, out.after.tokens, s.tokens[found.value].user, now))
  {
  }

  /** Exactly the unrevoked tokens of `u` were revoked, at `now`; nothing else changed. */
  predicate Revoked(tokens: map<TokenId, Token>, after: map<TokenId, Token>, u: UserId, now: int) {
    && after.Keys == tokens.Keys
    && forall x | x in tokens ::
         after[x] == if tokens[x].user == u && tokens[x].revokedAt == None then tokens[x].(revokedAt := Some(now))
                     else tokens[x]
  }

  lemma {:induction false} ResetEffect(s: State, u: UserId, now: int)
    ensures Revoked(s.tokens, Step(s, Reset(u, now)).tokens, u, now)
  {
  }

  /** Logging out revokes the presented token, if it is stored and unrevoked, and touches no other. */
  lemma {:induction false} LogoutEffect(s: State, found: Option<TokenId>, now: int)
    ensures var tokens := Step(s, Logout(found, now)).tokens;
            && tokens.Keys == s.tokens.Keys
            && forall x | x in s.tokens ::
                 tokens[x] == if found == Some(x) && s.tokens[x].revokedAt == None
                              then s.tokens[x].(revokedAt := Some(now)) else s.tokens[x]
  {
  }

  /** A login adds one unrevoked token that lives for seven days. */
  lemma {:induction false} LoginEffect(s: State, u: UserId, id: TokenId, hash: string, now: int)
    requires id !in s.issued && id !in s.tokens && HashIsFree(s.tokens, hash)
    ensures var tokens := Step(s, Login(u, id, hash, now)).tokens;
            && tokens.Keys == s.tokens.Keys + {id}
            && tokens[id].user == u && tokens[id].hash == hash && tokens[id].expiresAt == now + SEVEN_DAYS_MS
            && tokens[id].revokedAt == None && tokens[id].replacedBy == None
            && forall x | x in s.tokens :: tokens[x] == s.tokens[x]
  {
  }

  /** Cleanup deletes exactly the tokens that expired more than seven days ago. */
  lemma {:induction false} CleanupEffect(s: State, now: int)
    ensures var tokens := Step(s, Cleanup(now)).tokens;
            && (forall x :: x in tokens <==> x in s.tokens && s.tokens[x].expiresAt >= now - SEVEN_DAYS_MS)
            && forall x | x in tokens :: tokens[x] == s.tokens[x]
  {
  }

  // ---- Over runs ----

  /** Nothing in the run concerns the token or its user but cleanups and other users' business. */
  predicate LeavesAlone(s: State, a: Action, id: TokenId)
    requires id in s.tokens
  {
    match a
    case Login(_, _, _, _) => true
    case Present(found, _, _, _) =>
      found.Some? && found.value in s.tokens && found != Some(id) ==>
        !(s.tokens[found.value].user == s.tokens[id].user && s.tokens[found.value].revokedAt.Some?)
    case Logout(_, _) => true
    case Reset(u, _) => u != s.tokens[id].user
    case Cleanup(now) => now <= s.tokens[id].expiresAt + SEVEN_DAYS_MS
  }

  /** An unrevoked token stays as it is until it is presented, logged out, reset or replayed around. */
  lemma {:induction false} LiveTokenStays(run: seq<Action>, a: Action, id: TokenId)
    requires id in Run(run).tokens && Run(run).tokens[id].revokedAt == None
    requires LeavesAlone(Run(run), a, id)
    requires (a.Present? || a.Logout?) ==> a.found != Some(id)
    ensures id in Step(Run(run), a).tokens && Step(Run(run), a).tokens[id] == Run(run).tokens[id]
  {
    RunLinear(run);
  }
}
