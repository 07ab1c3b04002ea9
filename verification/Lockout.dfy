/**
 The progressive login lockout: a guard that looks at the newest 20 login events of an identifier,
 and a login that logs its outcome.  Attempts are serialised; each is guarded at one time and logged
 at a later one.
 */
module Lockout {
  import opened Wrappers

  const LOCKOUT_STEPS_SECONDS := [5, 30, 300, 900, 3600]
  const WINDOW := 20

  datatype Kind = LoginSuccess | LoginFailure | LockedOut | OtherEvent

  datatype AuthEvent = AuthEvent(identifier: string, kind: Kind, at: int)

  function LockoutSeconds(failures: int): int {
    if failures <= 0 then 0
    else if failures >= |LOCKOUT_STEPS_SECONDS| then LOCKOUT_STEPS_SECONDS[|LOCKOUT_STEPS_SECONDS| - 1]
    else LOCKOUT_STEPS_SECONDS[failures - 1]
  }

  predicate IsLogin(e: AuthEvent, id: string) {
    e.identifier == id && (e.kind == LoginSuccess || e.kind == LoginFailure)
  }

  /** The login events of `id`, oldest first. */
  function Logins(log: seq<AuthEvent>, id: string): seq<AuthEvent> {
    if log == [] then []
    else
      var e := log[|log| - 1];
      Logins(log[..|log| - 1], id) + if IsLogin(e, id) then [e] else []
  }

  /** The newest `limit` of `logins`, newest first. */
  function Newest(logins: seq<AuthEvent>, limit: nat): seq<AuthEvent> {
    if logins == [] || limit == 0 then []
    else [logins[|logins| - 1]] + Newest(logins[..|logins| - 1], limit - 1)
  }

  /** Failures before the first success in a newest-first list. */
  function LeadingFailures(events: seq<AuthEvent>): nat {
    if events == [] || events[0].kind == LoginSuccess then 0
    else (if events[0].kind == LoginFailure then 1 else 0) + LeadingFailures(events[1..])
  }

  function FirstFailure(events: seq<AuthEvent>): Option<AuthEvent> {
    if events == [] then None
    else if events[0].kind == LoginFailure then Some(events[0])
    else FirstFailure(events[1..])
  }

  function CeilDiv(x: int, d: int): int
    requires d > 0
  {
    -(-x / d)
  }

  /** Seconds still to wait as the guard computes them; None lets the request pass. */
  function Remaining(events: seq<AuthEvent>, now: int): Option<int> {
    var seconds := LockoutSeconds(LeadingFailures(events));
    var latest := FirstFailure(events);
    if seconds == 0 || latest.None? then None
    else
      var remaining := CeilDiv(latest.value.at + seconds * 1000 - now, 1000);
      if remaining <= 0 then None else Some(remaining)
  }

  function Guarded(log: seq<AuthEvent>, id: string, limit: nat, now: int): Option<int> {
    if id == "" then None else Remaining(Newest(Logins(log, id), limit), now)
  }

  /** A login request: the guard uses the trimmed identifier, the login logs the one it was given. */
  datatype Attempt = Attempt(identifier: string, success: bool, guardedAt: int, loggedAt: int)

  function Apply(log: seq<AuthEvent>, trim: string -> string, a: Attempt): seq<AuthEvent> {
    var id := trim(a.identifier);
    if Guarded(log, id, WINDOW, a.guardedAt).Some? then log + [AuthEvent(id, LockedOut, a.guardedAt)]
    else log + [AuthEvent(a.identifier, if a.success then LoginSuccess else LoginFailure, a.loggedAt)]
  }

  function Run(trim: string -> string, run: seq<Attempt>): seq<AuthEvent> {
    if run == [] then [] else Apply(Run(trim, run[..|run| - 1]), trim, run[|run| - 1])
  }

  /** Attempts that the guard counts for `id` follow one another, under a clock that does not go back. */
  predicate Serialised(trim: string -> string, run: seq<Attempt>, id: string) {
    && (forall i | 0 <= i < |run| && trim(run[i].identifier) == id :: run[i].guardedAt <= run[i].loggedAt)
    && forall i, j | 0 <= i < j < |run| && trim(run[i].identifier) == trim(run[j].identifier) == id ::
         run[i].loggedAt <= run[j].guardedAt
  }

  // ---- The window does not matter ----

  function Trailing(logins: seq<AuthEvent>): nat {
    if logins == [] || logins[|logins| - 1].kind != LoginFailure then 0
    else 1 + Trailing(logins[..|logins| - 1])
  }

  predicate OnlyLogins(logins: seq<AuthEvent>) {
    forall i | 0 <= i < |logins| :: logins[i].kind == LoginSuccess || logins[i].kind == LoginFailure
  }

  lemma {:induction false} LoginsAreLogins(log: seq<AuthEvent>, id: string)
    ensures OnlyLogins(Logins(log, id))
  {
    if log != [] {
      LoginsAreLogins(log[..|log| - 1], id);
    }
  }

  lemma {:induction false} LeadingIsTrailing(logins: seq<AuthEvent>, limit: nat)
    requires OnlyLogins(logins)
    ensures LeadingFailures(Newest(logins, limit)) == if Trailing(logins) < limit then Trailing(logins) else limit
  {
    if logins != [] && limit > 0 {
      var prefix := logins[..|logins| - 1];
      LeadingIsTrailing(prefix, limit - 1);
      assert Newest(logins, limit)[1..] == Newest(prefix, limit - 1);
    }
  }

  /** With a window of at least 5 events the guard waits for the lockout of the whole history. */
  lemma {:induction false} RemainingIsExact(logins: seq<AuthEvent>, limit: nat, now: int)
    requires OnlyLogins(logins) && limit >= |LOCKOUT_STEPS_SECONDS|
    ensures Remaining(Newest(logins, limit), now).Some? <==>
      logins != [] && now < logins[|logins| - 1].at + 1000 * LockoutSeconds(Trailing(logins))
                   && Trailing(logins) > 0
    ensures Remaining(Newest(logins, limit), now).Some? ==>
      Remaining(Newest(logins, limit), now).value
        == CeilDiv(logins[|logins| - 1].at + 1000 * LockoutSeconds(Trailing(logins)) - now, 1000)
  {
    LeadingIsTrailing(logins, limit);
    if logins != [] {
      assert Newest(logins, limit)[0] == logins[|logins| - 1];
    }
  }

  /** The lockout computed from the newest 20 events is the one of the full, unbounded history. */
  lemma {:induction false} WindowSuffices(log: seq<AuthEvent>, id: string, now: int)
    ensures Guarded(log, id, WINDOW, now) == Guarded(log, id, |log| + WINDOW, now)
  {
    LoginsAreLogins(log, id);
    RemainingIsExact(Logins(log, id), WINDOW, now);
    RemainingIsExact(Logins(log, id), |log| + WINDOW, now);
  }

  // ---- Failures are spaced ----

  /** Each login event of the identifier respects the lockout that was due before it. */
  ghost predicate Spaced(logins: seq<AuthEvent>) {
    if |logins| <= 1 then true
    else
      var n := |logins| - 1;
      && Spaced(logins[..n])
      && logins[n].at >= logins[n - 1].at + 1000 * LockoutSeconds(Trailing(logins[..n]))
  }

  lemma {:induction false} LoginsPush(log: seq<AuthEvent>, e: AuthEvent, id: string)
    ensures Logins(log + [e], id) == Logins(log, id) + if IsLogin(e, id) then [e] else []
  {
    assert (log + [e])[..|log|] == log;
  }

  ghost predicate NoLaterThan(log: seq<AuthEvent>, id: string, clock: int) {
    Logins(log, id) != [] ==> Logins(log, id)[|Logins(log, id)| - 1].at <= clock
  }

  lemma {:induction false} SpacedPush(logins: seq<AuthEvent>, e: AuthEvent)
    requires Spaced(logins)
    requires logins != [] ==> e.at >= logins[|logins| - 1].at + 1000 * LockoutSeconds(Trailing(logins))
    ensures Spaced(logins + [e])
  {
    assert (logins + [e])[..|logins|] == logins;
  }

  /** A request that passes the guard comes after the lockout that was due. */
  lemma {:induction false} PassedAfterLockout(log: seq<AuthEvent>, id: string, now: int)
    requires id != "" && Guarded(log, id, WINDOW, now).None? && NoLaterThan(log, id, now)
    ensures var logins := Logins(log, id);
            logins != [] ==> now >= logins[|logins| - 1].at + 1000 * LockoutSeconds(Trailing(logins))
  {
    LoginsAreLogins(log, id);
    RemainingIsExact(Logins(log, id), WINDOW, now);
  }

  /** One more event in the log, due in time if it is a login of `id`. */
  lemma {:induction false} LogSpaced(log: seq<AuthEvent>, e: AuthEvent, id: string, clock: int, later: int)
    requires Spaced(Logins(log, id)) && NoLaterThan(log, id, clock) && clock <= later
    requires IsLogin(e, id) ==>
      var logins := Logins(log, id);
      && e.at <= later
      && (logins != [] ==> e.at >= logins[|logins| - 1].at + 1000 * LockoutSeconds(Trailing(logins)))
    ensures Spaced(Logins(log + [e], id)) && NoLaterThan(log + [e], id, later)
  {
    var logins := Logins(log, id);
    LoginsPush(log, e, id);
    if IsLogin(e, id) {
      SpacedPush(logins, e);
    } else {
      assert logins + [] == logins;
    }
  }

  lemma {:induction false} ApplySpaced(log: seq<AuthEvent>, trim: string -> string, a: Attempt, id: string)
    requires id != "" && trim(id) == id
    requires Spaced(Logins(log, id)) && NoLaterThan(log, id, a.guardedAt) && a.guardedAt <= a.loggedAt
    ensures Spaced(Logins(Apply(log, trim, a), id)) && NoLaterThan(Apply(log, trim, a), id, a.loggedAt)
  {
    var after := Apply(log, trim, a);
    var e := after[|log|];
    assert after == log + [e];
    if IsLogin(e, id) {
      PassedAfterLockout(log, id, a.guardedAt);
    }
    LogSpaced(log, e, id, a.guardedAt, a.loggedAt);
  }

  /** An attempt on another identifier adds no login event of `id`. */
  lemma {:induction false} ApplyElsewhere(log: seq<AuthEvent>, trim: string -> string, a: Attempt, id: string)
    requires trim(id) == id && trim(a.identifier) != id
    ensures Logins(Apply(log, trim, a), id) == Logins(log, id)
  {
    var after := Apply(log, trim, a);
    assert after == log + [after[|log|]];
    LoginsPush(log, after[|log|], id);
    assert Logins(log, id) + [] == Logins(log, id);
  }

  /** All attempts that count for `id` have been logged by `clock`. */
  predicate LoggedBy(trim: string -> string, run: seq<Attempt>, id: string, clock: int) {
    forall i | 0 <= i < |run| && trim(run[i].identifier) == id :: run[i].loggedAt <= clock
  }

  /** Before its last attempt, a run has been logged by the time at which that attempt is guarded. */
  lemma {:induction false} SerialisedPush(
    trim: string -> string, prefix: seq<Attempt>, last: Attempt, id: string, clock: int)
    requires Serialised(trim, prefix + [last], id) && LoggedBy(trim, prefix + [last], id, clock)
    ensures Serialised(trim, prefix, id)
    ensures LoggedBy(trim, prefix, id, if trim(last.identifier) == id then last.guardedAt else clock)
    ensures trim(last.identifier) == id ==> last.guardedAt <= last.loggedAt <= clock
  {
    var run := prefix + [last];
    assert run[|prefix|] == last && forall i | 0 <= i < |prefix| :: run[i] == prefix[i];
  }

  lemma {:induction false} RunPush(trim: string -> string, prefix: seq<Attempt>, last: Attempt)
    ensures Run(trim, prefix + [last]) == Apply(Run(trim, prefix), trim, last)
  {
    assert (prefix + [last])[..|prefix|] == prefix;
  }

  /** One more attempt, on `id` or on another identifier. */
  lemma {:induction false} AttemptSpaced(
    log: seq<AuthEvent>, trim: string -> string, a: Attempt, id: string, before: int, clock: int)
    requires id != "" && trim(id) == id && Spaced(Logins(log, id)) && NoLaterThan(log, id, before)
    requires if trim(a.identifier) == id then before == a.guardedAt <= a.loggedAt <= clock else before == clock
    ensures Spaced(Logins(Apply(log, trim, a), id)) && NoLaterThan(Apply(log, trim, a), id, clock)
  {
    if trim(a.identifier) == id {
      ApplySpaced(log, trim, a, id);
    } else {
      ApplyElsewhere(log, trim, a, id);
    }
  }

  lemma {:induction false} RunSpaced(trim: string -> string, run: seq<Attempt>, id: string, clock: int)
    requires id != "" && trim(id) == id && Serialised(trim, run, id) && LoggedBy(trim, run, id, clock)
    ensures Spaced(Logins(Run(trim, run), id)) && NoLaterThan(Run(trim, run), id, clock)
  {
    if run != [] {
      var prefix, last := run[..|run| - 1], run[|run| - 1];
      var before := if trim(last.identifier) == id then last.guardedAt else clock;
      assert run == prefix + [last];
      SerialisedPush(trim, prefix, last, id, clock);
      RunSpaced(trim, prefix, id, before);
      RunPush(trim, prefix, last);
      AttemptSpaced(Run(trim, prefix), trim, last, id, before, clock);
    }
  }

  /** A time by which all attempts of the run have been logged. */
  function EndOf(run: seq<Attempt>): (clock: int)
    ensures forall i | 0 <= i < |run| :: run[i].loggedAt <= clock
  {
    if run == [] then 0
    else
      var before, at := EndOf(run[..|run| - 1]), run[|run| - 1].loggedAt;
      if before < at then at else before
  }

  /** The least time, in seconds, between the first and the last of `n` consecutive failures. */
  function MinSpan(n: nat): int {
    if n <= 1 then 0 else MinSpan(n - 1) + LockoutSeconds(n - 1)
  }

  lemma {:induction false} MinSpanClosed(n: nat)
    requires n >= 5
    ensures MinSpan(n) == 1235 + 3600 * (n - 5)
  {
    if n == 5 {
      assert MinSpan(2) == 5 && MinSpan(3) == 35 && MinSpan(4) == 335;
    } else {
      MinSpanClosed(n - 1);
    }
  }

  lemma {:induction false} SpacedPrefix(logins: seq<AuthEvent>, m: nat)
    requires Spaced(logins) && m <= |logins|
    ensures Spaced(logins[..m])
  {
    if m < |logins| {
      SpacedPrefix(logins[..|logins| - 1], m);
      assert logins[..|logins| - 1][..m] == logins[..m];
    } else {
      assert logins[..m] == logins;
    }
  }

  lemma {:induction false} TrailingAtLeast(logins: seq<AuthEvent>, n: nat)
    requires n <= |logins| && forall i | |logins| - n <= i < |logins| :: logins[i].kind == LoginFailure
    ensures Trailing(logins) >= n
  {
    if n > 0 {
      TrailingAtLeast(logins[..|logins| - 1], n - 1);
    }
  }

  lemma {:induction false} SpanOfFailures(logins: seq<AuthEvent>, n: nat)
    requires Spaced(logins) && 1 <= n <= |logins|
    requires forall i | |logins| - n <= i < |logins| :: logins[i].kind == LoginFailure
    ensures logins[|logins| - 1].at - logins[|logins| - n].at >= 1000 * MinSpan(n)
  {
    if n > 1 {
      var prefix := logins[..|logins| - 1];
      SpanOfFailures(prefix, n - 1);
      TrailingAtLeast(prefix, n - 1);
    }
  }

  /** Failures `i` to `i + n - 1` of a spaced history take at least the least time. */
  lemma {:induction false} SpanAtLeast(logins: seq<AuthEvent>, i: nat, n: nat)
    requires Spaced(logins) && n >= 1 && Failures(logins, i, n)
    ensures logins[i + n - 1].at - logins[i].at >= 1000 * MinSpan(n)
  {
    SpacedPrefix(logins, i + n);
    SpanOfFailures(logins[..i + n], n);
  }

  lemma {:induction false} SpanWithin(logins: seq<AuthEvent>, i: nat, n: nat)
    requires Spaced(logins) && n >= 5 && Failures(logins, i, n)
    ensures SpreadOut(logins, i, n)
  {
    SpanAtLeast(logins, i, n);
    MinSpanClosed(n);
  }

  /** Login events `i` to `i + n - 1` are failures. */
  predicate Failures(logins: seq<AuthEvent>, i: nat, n: nat) {
    i + n <= |logins| && forall k | i <= k < i + n :: logins[k].kind == LoginFailure
  }

  /** `n` login events from event `i` on take at least 1235 + 3600 * (n - 5) seconds. */
  predicate SpreadOut(logins: seq<AuthEvent>, i: nat, n: nat) {
    0 < n && i + n <= |logins| && logins[i + n - 1].at - logins[i].at >= 1000 * (1235 + 3600 * (n - 5))
  }

  /**
   `n` >= 5 consecutive failures on one identifier (login events `i` to `i + n - 1` of its history)
   take at least 1235 + 3600 * (n - 5) seconds, whatever else happens on other identifiers.
   */
  lemma {:induction false} FailuresTakeTime(trim: string -> string, run: seq<Attempt>, id: string, i: nat, n: nat)
    requires id != "" && trim(id) == id && Serialised(trim, run, id)
    requires n >= 5 && Failures(Logins(Run(trim, run), id), i, n)
    ensures SpreadOut(Logins(Run(trim, run), id), i, n)
  {
    RunSpaced(trim, run, id, EndOf(run));
    SpanWithin(Logins(Run(trim, run), id), i, n);
  }

  // ---- Identifiers that the guard does not recognise ----

  /** `n` failing attempts on `id` at time 0. */
  function Hammer(id: string, n: nat): seq<Attempt> {
    seq(n, _ => Attempt(id, false, 0, 0))
  }

  function FailuresAtZero(id: string, n: nat): seq<AuthEvent> {
    seq(n, _ => AuthEvent(id, LoginFailure, 0))
  }

  lemma {:induction false} LoginsOfFailures(id: string, n: nat, other: string)
    ensures Logins(FailuresAtZero(id, n), other) == if other == id then FailuresAtZero(id, n) else []
  {
    if n > 0 {
      LoginsOfFailures(id, n - 1, other);
      assert FailuresAtZero(id, n) == FailuresAtZero(id, n - 1) + [AuthEvent(id, LoginFailure, 0)];
      LoginsPush(FailuresAtZero(id, n - 1), AuthEvent(id, LoginFailure, 0), other);
    }
  }

  lemma {:induction false} OneMoreAdmitted(trim: string -> string, id: string, n: nat)
    requires trim(id) != id || id == ""
    ensures Apply(FailuresAtZero(id, n), trim, Attempt(id, false, 0, 0)) == FailuresAtZero(id, n + 1)
  {
    LoginsOfFailures(id, n, trim(id));
    assert FailuresAtZero(id, n + 1) == FailuresAtZero(id, n) + [AuthEvent(id, LoginFailure, 0)];
  }

  /** The guard looks up the trimmed identifier and never meets the failures logged under the raw one. */
  lemma {:induction false} HammerIsAdmitted(trim: string -> string, id: string, n: nat)
    requires trim(id) != id || id == ""
    ensures Run(trim, Hammer(id, n)) == FailuresAtZero(id, n)
  {
    if n > 0 {
      HammerIsAdmitted(trim, id, n - 1);
      OneMoreAdmitted(trim, id, n - 1);
      assert Hammer(id, n)[..n - 1] == Hammer(id, n - 1);
    }
  }

  /** The lockout spreads out any `n` consecutive failures on `id`, in every run that serialises the attempts on it. */
  ghost predicate LocksOut(trim: string -> string, id: string, n: nat) {
    forall run, i: nat | Serialised(trim, run, id) && Failures(Logins(Run(trim, run), id), i, n) ::
      SpreadOut(Logins(Run(trim, run), id), i, n)
  }

  lemma {:induction false} TrimmedIsLockedOut(trim: string -> string, id: string, n: nat)
    requires n >= 5 && id != "" && trim(id) == id
    ensures LocksOut(trim, id, n)
  {
    forall run, i: nat | Serialised(trim, run, id) && Failures(Logins(Run(trim, run), id), i, n)
      ensures SpreadOut(Logins(Run(trim, run), id), i, n)
    {
      FailuresTakeTime(trim, run, id, i, n);
    }
  }

  lemma {:induction false} NoDelay(id: string, n: nat)
    requires n >= 5
    ensures Failures(FailuresAtZero(id, n), 0, n) && !SpreadOut(FailuresAtZero(id, n), 0, n)
  {
  }

  /** Failures on an identifier that the guard does not recognise: all admitted, all at one instant. */
  lemma {:induction false} UntrimmedFailures(trim: string -> string, id: string, n: nat)
    requires trim(id) != id || id == ""
    ensures Serialised(trim, Hammer(id, n), id)
    ensures Logins(Run(trim, Hammer(id, n)), id) == FailuresAtZero(id, n)
    ensures trim(id) != id ==> Logins(Run(trim, Hammer(id, n)), trim(id)) == []
  {
    HammerIsAdmitted(trim, id, n);
    LoginsOfFailures(id, n, id);
    LoginsOfFailures(id, n, trim(id));
  }

  lemma {:induction false} UntrimmedIsNotLockedOut(trim: string -> string, id: string, n: nat)
    requires n >= 5 && (trim(id) != id || id == "")
    ensures !LocksOut(trim, id, n)
  {
    UntrimmedFailures(trim, id, n);
    NoDelay(id, n);
    assert Failures(Logins(Run(trim, Hammer(id, n)), id), 0, n);
  }

  /**
   The lockout works for exactly the identifiers without surrounding blanks: on any other, failures
   can follow one another without delay.
   */
  lemma {:induction false} LocksOutIffTrimmed(trim: string -> string, id: string, n: nat)
    requires n >= 5
    ensures LocksOut(trim, id, n) <==> id != "" && trim(id) == id
  {
    if id != "" && trim(id) == id {
      TrimmedIsLockedOut(trim, id, n);
    } else {
      UntrimmedIsNotLockedOut(trim, id, n);
    }
  }

  /** `found` and what is still to be found before event `i` make up the newest login events. */
  ghost predicate Backed(log: seq<AuthEvent>, id: string, i: nat, found: seq<AuthEvent>)
    requires i <= |log| && |found| <= WINDOW
  {
    found + Newest(Logins(log[..i], id), WINDOW - |found|) == Newest(Logins(log, id), WINDOW)
  }

  lemma {:induction false} NewestPush(logins: seq<AuthEvent>, e: AuthEvent, limit: nat)
    requires limit > 0
    ensures Newest(logins + [e], limit) == [e] + Newest(logins, limit - 1)
  {
    assert (logins + [e])[..|logins|] == logins;
  }

  lemma {:induction false} BackLogins(log: seq<AuthEvent>, id: string, i: nat)
    requires i < |log|
    ensures Logins(log[..i + 1], id) == Logins(log[..i], id) + if IsLogin(log[i], id) then [log[i]] else []
  {
    assert log[..i + 1] == log[..i] + [log[i]];
    LoginsPush(log[..i], log[i], id);
  }

  /** Going back over one more event. */
  lemma {:induction false} BackStep(log: seq<AuthEvent>, id: string, i: nat, found: seq<AuthEvent>)
    requires i < |log| && |found| < WINDOW && Backed(log, id, i + 1, found)
    ensures Backed(log, id, i, if IsLogin(log[i], id) then found + [log[i]] else found)
  {
    var logins, e, limit := Logins(log[..i], id), log[i], WINDOW - |found|;
    BackLogins(log, id, i);
    if IsLogin(e, id) {
      NewestPush(logins, e, limit);
      assert found + ([e] + Newest(logins, limit - 1)) == (found + [e]) + Newest(logins, limit - 1);
    } else {
      assert logins + [] == logins;
    }
  }

  // ---- The guard and the login ----

  class AuthLog {
    var events: seq<AuthEvent>

    constructor ()
      ensures events == []
    {
      events := [];
    }

    method FindNewest(id: string) returns (found: seq<AuthEvent>)
      ensures found == Newest(Logins(events, id), WINDOW)
    {
      found := [];
      var log := events;
      var i := |log|;
      assert log[..i] == log;
      assert [] + Newest(Logins(log, id), WINDOW) == Newest(Logins(log, id), WINDOW);
      while i > 0 && |found| < WINDOW
        invariant i <= |log| && |found| <= WINDOW && Backed(log, id, i, found)
        decreases i
      {
        i := i - 1;
        BackStep(log, id, i, found);
        if (log[i].kind == LoginSuccess || log[i].kind == LoginFailure) && log[i].identifier == id {
          found := found + [log[i]];
        }
      }
      assert Newest(Logins(log[..i], id), WINDOW - |found|) == [];
    }

    method CountConsecutiveFailures(list: seq<AuthEvent>) returns (failures: nat)
      ensures failures == LeadingFailures(list)
    {
      failures := 0;
      for i := 0 to |list|
        invariant failures + LeadingFailures(list[i..]) == LeadingFailures(list)
      {
        assert list[i..][0] == list[i] && list[i..][1..] == list[i + 1..];
        if list[i].kind == LoginSuccess {
          break;
        }
        if list[i].kind == LoginFailure {
          failures := failures + 1;
        }
      }
    }

    method LatestFailure(list: seq<AuthEvent>) returns (latest: Option<AuthEvent>)
      ensures latest == FirstFailure(list)
    {
      for i := 0 to |list|
        invariant FirstFailure(list[i..]) == FirstFailure(list)
      {
        assert list[i..][0] == list[i] && list[i..][1..] == list[i + 1..];
        if list[i].kind == LoginFailure {
          return Some(list[i]);
        }
      }
      latest := None;
    }

    /** Lets the request pass, or logs the lockout and reports how long to wait. */
    method CanActivate(trim: string -> string, identifier: string, now: int) returns (retryAfter: Option<int>)
      modifies this
      ensures retryAfter == Guarded(old(events), trim(identifier), WINDOW, now)
      ensures events == if retryAfter.None? then old(events)
                        else old(events) + [AuthEvent(trim(identifier), LockedOut, now)]
    {
      var id := trim(identifier);
      if id == "" {
        return None;
      }
      var found := FindNewest(id);
      var failures := CountConsecutiveFailures(found);
      if failures == 0 {
        return None;
      }
      var seconds := LockoutSeconds(failures);
      if seconds == 0 {
        return None;
      }
      var latest := LatestFailure(found);
      if latest.None? {
        return None;
      }
      var remaining := CeilDiv(latest.value.at + seconds * 1000 - now, 1000);
      if remaining <= 0 {
        return None;
      }
      events := events + [AuthEvent(id, LockedOut, now)];
      retryAfter := Some(remaining);
    }

    method Login(trim: string -> string, a: Attempt) returns (admitted: bool)
      modifies this
      ensures events == Apply(old(events), trim, a)
      ensures admitted <==> Guarded(old(events), trim(a.identifier), WINDOW, a.guardedAt).None?
    {
      var retryAfter := CanActivate(trim, a.identifier, a.guardedAt);
      admitted := retryAfter.None?;
      if admitted {
        events := events + [AuthEvent(a.identifier, if a.success then LoginSuccess else LoginFailure, a.loggedAt)];
      }
    }
  }
}
