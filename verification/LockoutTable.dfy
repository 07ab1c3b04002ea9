/** The lockout in numbers: how long the guard refuses after each number of failures, and that no longer. */
module LockoutTable {
  import opened Lockout

  /** The newest `n` login events are failures, and no more than that. */
  predicate LastFailures(logins: seq<AuthEvent>, n: nat) {
    && n <= |logins|
    && (forall i | |logins| - n <= i < |logins| :: logins[i].kind == LoginFailure)
    && (n < |logins| ==> logins[|logins| - 1 - n].kind == LoginSuccess)
  }

  lemma {:induction false} LastFailuresTrail(logins: seq<AuthEvent>, n: nat)
    requires LastFailures(logins, n)
    ensures Trailing(logins) == n
  {
    if n > 0 {
      LastFailuresTrail(logins[..|logins| - 1], n - 1);
    }
  }

  /** The guard over the newest 20 events refuses. */
  predicate Refuses(log: seq<AuthEvent>, id: string, now: int) {
    Guarded(log, id, 20, now).Some?
  }

  lemma {:induction false} RefusesFor(log: seq<AuthEvent>, id: string, now: int, n: nat)
    requires id != "" && LastFailures(Logins(log, id), n)
    ensures n == 0 ==> !Refuses(log, id, now)
    ensures n > 0 ==>
      var last := Logins(log, id)[|Logins(log, id)| - 1].at;
      && (Refuses(log, id, now) <==> now < last + 1000 * LockoutSeconds(n))
      && (Refuses(log, id, now) ==>
            Guarded(log, id, 20, now).value == CeilDiv(last + 1000 * LockoutSeconds(n) - now, 1000))
  {
    LoginsAreLogins(log, id);
    LastFailuresTrail(Logins(log, id), n);
    RemainingIsExact(Logins(log, id), 20, now);
  }

  /**
   After one, two, three and four failures in a row, and after five or more, the guard refuses for
   5, 30, 300, 900 and 3600 seconds from the last of them; without one it does not refuse.
   */
  lemma {:induction false} RefusalTable(log: seq<AuthEvent>, id: string, now: int, n: nat, last: int)
    requires id != "" && LastFailures(Logins(log, id), n)
    requires n > 0 ==> last == Logins(log, id)[|Logins(log, id)| - 1].at
    ensures n == 0 ==> !Refuses(log, id, now)
    ensures n == 1 ==> (Refuses(log, id, now) <==> now < last + 5000)
    ensures n == 2 ==> (Refuses(log, id, now) <==> now < last + 30000)
    ensures n == 3 ==> (Refuses(log, id, now) <==> now < last + 300000)
    ensures n == 4 ==> (Refuses(log, id, now) <==> now < last + 900000)
    ensures n >= 5 ==> (Refuses(log, id, now) <==> now < last + 3600000)
  {
    RefusesFor(log, id, now, n);
  }

  /** The wait that is reported is the time left, in whole seconds and rounded up. */
  lemma {:induction false} WaitIsRoundedUp(log: seq<AuthEvent>, id: string, now: int, n: nat, last: int)
    requires id != "" && n > 0 && LastFailures(Logins(log, id), n) && Refuses(log, id, now)
    requires last == Logins(log, id)[|Logins(log, id)| - 1].at
    ensures var wait := Guarded(log, id, 20, now).value;
            var until := last + if n == 1 then 5000 else if n == 2 then 30000 else if n == 3 then 300000
                                else if n == 4 then 900000 else 3600000;
            1000 * (wait - 1) < until - now <= 1000 * wait
  {
    RefusesFor(log, id, now, n);
  }

  /** An empty identifier is not guarded at all. */
  lemma {:induction false} EmptyPasses(log: seq<AuthEvent>, now: int)
    ensures !Refuses(log, "", now)
  {
  }

  /** Only logins of the identifier itself count, and a success wipes its failures out. */
  lemma {:induction false} WhatCounts(log: seq<AuthEvent>, id: string, e: AuthEvent, now: int)
    ensures e.identifier != id || (e.kind != LoginSuccess && e.kind != LoginFailure) ==>
      Guarded(log + [e], id, 20, now) == Guarded(log, id, 20, now)
    ensures e == AuthEvent(id, LoginSuccess, e.at) ==> !Refuses(log + [e], id, now)
  {
    LoginsPush(log, e, id);
    assert Logins(log, id) + [] == Logins(log, id);
    if e == AuthEvent(id, LoginSuccess, e.at) && id != "" {
      assert LastFailures(Logins(log + [e], id), 0);
      RefusesFor(log + [e], id, now, 0);
    }
  }

  /**
   Each attempt logs one event: a LOCKOUT of the trimmed identifier if the guard refuses it, else the
   outcome of the login under the identifier that was given.
   */
  lemma {:induction false} AttemptLogs(log: seq<AuthEvent>, trim: string -> string, a: Attempt)
    ensures Refuses(log, trim(a.identifier), a.guardedAt) ==>
      Apply(log, trim, a) == log + [AuthEvent(trim(a.identifier), LockedOut, a.guardedAt)]
    ensures !Refuses(log, trim(a.identifier), a.guardedAt) && a.success ==>
      Apply(log, trim, a) == log + [AuthEvent(a.identifier, LoginSuccess, a.loggedAt)]
    ensures !Refuses(log, trim(a.identifier), a.guardedAt) && !a.success ==>
      Apply(log, trim, a) == log + [AuthEvent(a.identifier, LoginFailure, a.loggedAt)]
  {
  }

  // ---- Runs ----

  lemma {:induction false} SpanTable()
    ensures MinSpan(1) == 0 && MinSpan(2) == 5 && MinSpan(3) == 35 && MinSpan(4) == 335 && MinSpan(5) == 1235
  {
    assert MinSpan(2) == 5;
    assert MinSpan(3) == 35;
    assert MinSpan(4) == 335;
  }

  lemma {:induction false} SpanInNumbers(n: nat)
    requires n >= 1
    ensures MinSpan(n) == if n == 1 then 0 else if n == 2 then 5 else if n == 3 then 35 else if n == 4 then 335
                          else 1235 + 3600 * (n - 5)
  {
    SpanTable();
    if n >= 5 {
      MinSpanClosed(n);
    }
  }

  /** Two, three and four failures in a row span at least 5, 35 and 335 seconds. */
  lemma {:induction false} FewFailuresTakeTime(trim: string -> string, run: seq<Attempt>, id: string, i: nat, n: nat)
    requires id != "" && trim(id) == id && Serialised(trim, run, id)
    requires 2 <= n <= 4 && Failures(Logins(Run(trim, run), id), i, n)
    ensures var logins := Logins(Run(trim, run), id);
            logins[i + n - 1].at - logins[i].at >= if n == 2 then 5000 else if n == 3 then 35000 else 335000
  {
    RunSpaced(trim, run, id, EndOf(run));
    SpanAtLeast(Logins(Run(trim, run), id), i, n);
    SpanInNumbers(n);
  }

  /** Failing attempts, each at the first moment at which the guard lets it pass. */
  function Fastest(id: string, n: nat): seq<Attempt> {
    seq(n, k requires 0 <= k < n => Attempt(id, false, 1000 * MinSpan(k + 1), 1000 * MinSpan(k + 1)))
  }

  function FastestFailures(id: string, n: nat): seq<AuthEvent> {
    seq(n, k requires 0 <= k < n => AuthEvent(id, LoginFailure, 1000 * MinSpan(k + 1)))
  }

  lemma {:induction false} FastestPush(id: string, n: nat)
    ensures FastestFailures(id, n + 1) == FastestFailures(id, n) + [AuthEvent(id, LoginFailure, 1000 * MinSpan(n + 1))]
  {
  }

  lemma {:induction false} AllAreLogins(log: seq<AuthEvent>, id: string)
    requires forall i | 0 <= i < |log| :: IsLogin(log[i], id)
    ensures Logins(log, id) == log
  {
    if log != [] {
      AllAreLogins(log[..|log| - 1], id);
    }
  }

  lemma {:induction false} FastestLogins(id: string, n: nat)
    ensures Logins(FastestFailures(id, n), id) == FastestFailures(id, n)
  {
    AllAreLogins(FastestFailures(id, n), id);
  }

  lemma {:induction false} FastestPasses(id: string, n: nat)
    requires id != ""
    ensures !Refuses(FastestFailures(id, n), id, 1000 * MinSpan(n + 1))
  {
    FastestLogins(id, n);
    assert LastFailures(Logins(FastestFailures(id, n), id), n);
    RefusesFor(FastestFailures(id, n), id, 1000 * MinSpan(n + 1), n);
  }

  lemma {:induction false} FastestRuns(trim: string -> string, id: string, n: nat)
    requires id != "" && trim(id) == id
    ensures Run(trim, Fastest(id, n)) == FastestFailures(id, n)
  {
    if n > 0 {
      FastestRuns(trim, id, n - 1);
      FastestPasses(id, n - 1);
      assert Fastest(id, n)[..n - 1] == Fastest(id, n - 1);
      FastestPush(id, n - 1);
    }
  }

  lemma {:induction false} SpansGrow(i: nat, j: nat)
    requires i <= j
    ensures MinSpan(i) <= MinSpan(j)
  {
    if i < j {
      SpansGrow(i, j - 1);
    }
  }

  lemma {:induction false} FastestIsSerialised(trim: string -> string, id: string, n: nat)
    ensures Serialised(trim, Fastest(id, n), id)
  {
    var run := Fastest(id, n);
    forall i, j | 0 <= i < j < |run| ensures run[i].loggedAt <= run[j].guardedAt {
      SpansGrow(i + 1, j + 1);
    }
  }

  lemma {:induction false} FastestShape(id: string, n: nat)
    requires n >= 1
    ensures var logins := FastestFailures(id, n);
            && |logins| == n && Failures(logins, 0, n)
            && logins[n - 1].at - logins[0].at == 1000 * MinSpan(n)
  {
    assert MinSpan(1) == 0;
  }

  /** The bounds are attained: for every n some run has n failures in a row in exactly the least time. */
  lemma {:induction false} BoundsAreAttained(trim: string -> string, id: string, n: nat)
    returns (run: seq<Attempt>, logins: seq<AuthEvent>)
    requires id != "" && trim(id) == id && n >= 1
    ensures Serialised(trim, run, id) && logins == Logins(Run(trim, run), id)
    ensures |logins| == n && Failures(logins, 0, n)
    ensures logins[n - 1].at - logins[0].at
         == 1000 * (if n == 1 then 0 else if n == 2 then 5 else if n == 3 then 35 else if n == 4 then 335
                    else 1235 + 3600 * (n - 5))
  {
    run := Fastest(id, n);
    FastestIsSerialised(trim, id, n);
    logins := AttainedLogins(trim, id, n);
    FastestShape(id, n);
    SpanInNumbers(n);
  }

  lemma {:induction false} AttainedLogins(trim: string -> string, id: string, n: nat) returns (logins: seq<AuthEvent>)
    requires id != "" && trim(id) == id
    ensures logins == FastestFailures(id, n) == Logins(Run(trim, Fastest(id, n)), id)
  {
    logins := FastestFailures(id, n);
    FastestRuns(trim, id, n);
    FastestLogins(id, n);
  }
}
