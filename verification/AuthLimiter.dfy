/** The login failure limiter and the handler that drives it (src/auth.rs, src/server.rs). */
module AuthLimiter {
  import opened Common

  const MAX_FAILURES: nat := 5
  const LOCKOUT_SECS: nat := 900

  datatype Entry = Entry(failures: nat, lockedUntil: Option<Instant>)

  /** The outcomes of the checks `handle_auth` delegates: each is an input. */
  datatype Credentials = Credentials(
    desktopKey: Option<bool>,   // present, and whether it verifies
    deviceToken: bool,          // a valid token of this user naming a registered device
    password: Option<bool>,     // present, and whether it verifies
    hasTotp: bool,
    totp: Option<bool>)         // present, and whether it verifies

  datatype Verdict = RateLimited | Failure | Success | Incomplete

  predicate Locked(entry: Option<Entry>, now: Instant) {
    entry.Some? && entry.value.lockedUntil.Some? && now < entry.value.lockedUntil.value
  }

  /** What an attempt that is not rate limited amounts to. */
  function Judge(c: Credentials): Verdict {
    match c.desktopKey
    case Some(valid) => if valid then Success else Failure
    case None =>
      if c.deviceToken then Success
      else match c.password
        case None => Incomplete
        case Some(valid) =>
          if !valid then Failure
          else if !c.hasTotp then Success
          else match c.totp
            case None => Incomplete
            case Some(code) => if code then Success else Failure
  }

  /** `record_failure` on one username's entry. */
  function Failed(entry: Option<Entry>, now: Instant): Entry {
    var e := if entry.Some? then entry.value else Entry(0, None);
    Entry(e.failures + 1, if e.failures + 1 >= MAX_FAILURES then Some(now + LOCKOUT_SECS * NANOS) else e.lockedUntil)
  }

  /** One login attempt: the limiter is consulted at `at`, a failure is recorded at `stamp`. */
  datatype Attempt = Attempt(at: Instant, stamp: Instant, credentials: Credentials)

  function Decide(entry: Option<Entry>, a: Attempt): Verdict {
    if Locked(entry, a.at) then RateLimited else Judge(a.credentials)
  }

  function Next(entry: Option<Entry>, a: Attempt): Option<Entry> {
    match Decide(entry, a)
    case Failure => Some(Failed(entry, a.stamp))
    case Success => None
    case _ => entry
  }

  /** No desktop key and no valid device token: the password decides, then the second factor. */
  predicate ByPassword(c: Credentials) {
    c.desktopKey.None? && !c.deviceToken
  }

  /** A login succeeds by a key, by a token, or by a password with any enrolled second factor. */
  predicate Proves(c: Credentials) {
    || c.desktopKey == Some(true)
    || (c.desktopKey.None? && c.deviceToken)
    || (ByPassword(c) && c.password == Some(true) && (c.hasTotp ==> c.totp == Some(true)))
  }

  /** It fails by a wrong credential where that one decides. */
  predicate Disproves(c: Credentials) {
    || c.desktopKey == Some(false)
    || (ByPassword(c) && c.password == Some(false))
    || (ByPassword(c) && c.password == Some(true) && c.hasTotp && c.totp == Some(false))
  }

  /** It is incomplete if the password, or an enrolled second factor after it, was not given. */
  predicate Lacks(c: Credentials) {
    ByPassword(c) && (c.password.None? || (c.password == Some(true) && c.hasTotp && c.totp.None?))
  }

  /** Exactly when an attempt is refused, succeeds, fails or is incomplete. */
  lemma VerdictExactly(entry: Option<Entry>, a: Attempt)
    ensures Decide(entry, a) == RateLimited <==> Locked(entry, a.at)
    ensures Decide(entry, a) == Success <==> !Locked(entry, a.at) && Proves(a.credentials)
    ensures Decide(entry, a) == Failure <==> !Locked(entry, a.at) && Disproves(a.credentials)
    ensures Decide(entry, a) == Incomplete <==> !Locked(entry, a.at) && Lacks(a.credentials)
  {
  }

  /** `AuthManager`, as far as rate limiting goes. */
  class RateLimiter {
    var limits: map<string, Entry>

    function EntryOf(username: string): Option<Entry>
      reads this
    {
      if username in limits then Some(limits[username]) else None
    }

    constructor ()
      ensures limits == map[]
    {
      limits := map[];
    }

    /** Refuses exactly while locked; the hint is the whole seconds left, but at least one. */
    method CheckRateLimit(username: string, now: Instant, again: Instant) returns (r: Result<(), nat>)
      requires now <= again
      ensures r.Err? <==> Locked(EntryOf(username), now)
      ensures r.Err? ==>
        var left := EntryOf(username).value.lockedUntil.value - again;
        1 <= r.error && (r.error > 1 ==> r.error * NANOS <= left) && left < (r.error + 1) * NANOS
    {
      if username in limits {
        var entry := limits[username];
        if entry.lockedUntil.Some? && now < entry.lockedUntil.value {
          var remaining := AsSecs(again, entry.lockedUntil.value);
          return Err(if remaining < 1 then 1 else remaining);
        }
      }
      return Ok(());
    }

    method RecordFailure(username: string, now: Instant)
      modifies this
      ensures limits == old(limits)[username := Failed(old(EntryOf(username)), now)]
    {
      if username !in limits {
        limits := limits[username := Entry(0, None)];
      }
      var failures := limits[username].failures + 1;
      limits := limits[username := limits[username].(failures := failures)];
      if failures >= MAX_FAILURES {
        limits := limits[username := limits[username].(lockedUntil := Some(now + LOCKOUT_SECS * NANOS))];
      }
    }

    method ClearRateLimit(username: string)
      modifies this
      ensures limits == old(limits) - {username}
    {
      limits := limits - {username};
    }

    /**
     * `handle_auth`: an attempt is refused while locked, and otherwise succeeds, fails or is
     * incomplete by its credentials; the limiter sees exactly the step `Next`, and no other
     * username is touched.
     */
    method HandleAuth(username: string, a: Attempt) returns (verdict: Verdict)
      requires a.at <= a.stamp
      modifies this
      ensures verdict == RateLimited <==> Locked(old(EntryOf(username)), a.at)
      ensures verdict == Success <==> !Locked(old(EntryOf(username)), a.at) && Proves(a.credentials)
      ensures verdict == Failure <==> !Locked(old(EntryOf(username)), a.at) && Disproves(a.credentials)
      ensures verdict == Incomplete <==> !Locked(old(EntryOf(username)), a.at) && Lacks(a.credentials)
      ensures verdict == Decide(old(EntryOf(username)), a)
      ensures EntryOf(username) == Next(old(EntryOf(username)), a)
      ensures limits - {username} == old(limits) - {username}
    {
      var c := a.credentials;
      var check := CheckRateLimit(username, a.at, a.stamp);
      if check.Err? {
        return RateLimited;
      }
      if c.desktopKey.Some? {
        if c.desktopKey.value {
          ClearRateLimit(username);
          return Success;
        }
        RecordFailure(username, a.stamp);
        return Failure;
      }
      if c.deviceToken {
        ClearRateLimit(username);
        return Success;
      }
      if c.password.None? {
        return Incomplete;
      }
      if !c.password.value {
        RecordFailure(username, a.stamp);
        return Failure;
      }
      if c.hasTotp {
        if c.totp.None? {
          return Incomplete;
        }
        if !c.totp.value {
          RecordFailure(username, a.stamp);
          return Failure;
        }
      }
      ClearRateLimit(username);
      return Success;
    }
  }

  // ---------------------------------------------------------------- history of one username

  /** The calls that change the limiter for one username, in the order they happen. */
  datatype Change = Fail(now: Instant) | Clear

  function Changed(changes: seq<Change>): Option<Entry> {
    if changes == [] then None
    else match Last(changes)
      case Fail(now) => Some(Failed(Changed(Front(changes)), now))
      case Clear => None
  }

  /** When failures were recorded since the last clear. */
  function FailuresSince(changes: seq<Change>): seq<Instant> {
    if changes == [] then []
    else match Last(changes)
      case Fail(now) => FailuresSince(Front(changes)) + [now]
      case Clear => []
  }

  function Deadline(failures: seq<Instant>): Option<Instant> {
    if |failures| >= MAX_FAILURES then Some(Last(failures) + LOCKOUT_SECS * NANOS) else None
  }

  lemma {:induction false} EntryIsHistory(changes: seq<Change>)
    ensures
      var failures := FailuresSince(changes);
      Changed(changes) == if failures == [] then None else Some(Entry(|failures|, Deadline(failures)))
  {
    if changes != [] {
      EntryIsHistory(Front(changes));
    }
  }

  /**
   * However attempts overlap, the limiter refuses exactly when at least five failures were
   * recorded since the last clear and fewer than 900 seconds have passed since the last of them.
   */
  lemma RefusedExactly(changes: seq<Change>, now: Instant)
    ensures Locked(Changed(changes), now) <==>
      |FailuresSince(changes)| >= 5 && now < Last(FailuresSince(changes)) + 900_000_000_000
  {
    EntryIsHistory(changes);
  }

  /** The change a whole login attempt makes, if any. */
  function Extended(past: seq<Change>, a: Attempt): seq<Change> {
    match Decide(Changed(past), a)
    case Failure => past + [Fail(a.stamp)]
    case Success => past + [Clear]
    case _ => past
  }

  /** What a sequence of whole login attempts does to the limiter. */
  function Changes(attempts: seq<Attempt>): seq<Change> {
    if attempts == [] then [] else Extended(Changes(Front(attempts)), Last(attempts))
  }

  /** An attempt acts on the limiter as `Next` says, so `HandleAuth` called in turn runs these changes. */
  lemma AttemptIsStep(attempts: seq<Attempt>)
    requires attempts != []
    ensures Changed(Changes(attempts)) == Next(Changed(Changes(Front(attempts))), Last(attempts))
  {
    var past := Changes(Front(attempts));
    assert forall c :: Front(past + [c]) == past;
  }

  /** When failures were recorded since the last success. */
  function Failures(attempts: seq<Attempt>): seq<Instant> {
    FailuresSince(Changes(attempts))
  }

  predicate Timed(attempts: seq<Attempt>) {
    && (forall i :: 0 <= i < |attempts| ==> attempts[i].at <= attempts[i].stamp)
    && (forall i, j :: 0 <= i < j < |attempts| ==> attempts[i].stamp <= attempts[j].at)
  }

  /** From the fifth on, failures are a full lockout apart; none is later than the run itself. */
  ghost predicate Spaced(failures: seq<Instant>) {
    && (forall i, j :: 0 <= i <= j < |failures| ==> failures[i] <= failures[j])
    && (forall i :: MAX_FAILURES <= i < |failures| ==> failures[i - 1] + LOCKOUT_SECS * NANOS <= failures[i])
  }

  lemma SpacedAppend(failures: seq<Instant>, next: Instant)
    requires Spaced(failures) && (failures != [] ==> Last(failures) <= next)
    ensures Spaced(failures + [next])
       <==> (|failures| >= MAX_FAILURES ==> Last(failures) + LOCKOUT_SECS * NANOS <= next)
  {
    var all := failures + [next];
    assert |failures| >= MAX_FAILURES ==> all[|failures| - 1] == Last(failures) && all[|failures|] == next;
  }

  /**
   * Changes happen in order, and no failure is recorded while the limiter is locked.  Attempts
   * may overlap in any way that respects this.
   */
  predicate Disciplined(changes: seq<Change>) {
    changes == [] ||
    (&& Disciplined(Front(changes))
     && (Last(changes).Fail? ==>
           && !Locked(Changed(Front(changes)), Last(changes).now)
           && (FailuresSince(Front(changes)) != [] ==> Last(FailuresSince(Front(changes))) <= Last(changes).now)))
  }

  lemma {:induction false} DisciplinedIsSpaced(changes: seq<Change>)
    requires Disciplined(changes)
    ensures Spaced(FailuresSince(changes))
  {
    if changes != [] {
      DisciplinedIsSpaced(Front(changes));
      if Last(changes).Fail? {
        RefusedExactly(Front(changes), Last(changes).now);
        SpacedAppend(FailuresSince(Front(changes)), Last(changes).now);
      }
    }
  }

  /** Failures are recorded in the order of the clock. */
  predicate InOrder(changes: seq<Change>) {
    changes == [] ||
    (&& InOrder(Front(changes))
     && (Last(changes).Fail? && FailuresSince(Front(changes)) != [] ==>
           Last(FailuresSince(Front(changes))) <= Last(changes).now))
  }

  /** At every moment of the run the failures since the last clear are a lockout apart from the fifth on. */
  ghost predicate AlwaysSpaced(changes: seq<Change>) {
    Spaced(FailuresSince(changes)) && (changes != [] ==> AlwaysSpaced(Front(changes)))
  }

  /**
   * In whatever way attempts overlap, failures keep a lockout apart from the fifth on if and
   * only if none is recorded while the limiter is locked.
   */
  lemma {:induction false} SpacedExactly(changes: seq<Change>)
    requires InOrder(changes)
    ensures AlwaysSpaced(changes) <==> Disciplined(changes)
  {
    if changes != [] {
      SpacedExactly(Front(changes));
      if Last(changes).Fail? && AlwaysSpaced(Front(changes)) {
        RefusedExactly(Front(changes), Last(changes).now);
        SpacedAppend(FailuresSince(Front(changes)), Last(changes).now);
      }
    }
  }

  /** No failure is later than a given instant. */
  predicate Until(changes: seq<Change>, now: Instant) {
    FailuresSince(changes) != [] ==> Last(FailuresSince(changes)) <= now
  }

  /** An attempt that was let through is recorded while the limiter is still open. */
  lemma AttemptIsDisciplined(past: seq<Change>, a: Attempt)
    requires Disciplined(past) && Until(past, a.at) && a.at <= a.stamp
    ensures Disciplined(Extended(past, a)) && Until(Extended(past, a), a.stamp)
  {
    assert Front(past + [Clear]) == past && Front(past + [Fail(a.stamp)]) == past;
    FailuresAfter(past, a.stamp);
  }

  /** Whole attempts, one after another, never record a failure while the limiter is locked. */
  lemma {:induction false} AttemptsAreDisciplined(attempts: seq<Attempt>)
    requires Timed(attempts)
    ensures Disciplined(Changes(attempts))
    ensures Failures(attempts) != [] ==> attempts != [] && Last(Failures(attempts)) <= Last(attempts).stamp
  {
    if attempts != [] {
      AttemptsAreDisciplined(Front(attempts));
      assert |attempts| > 1 ==> attempts[|attempts| - 2].stamp <= Last(attempts).at;
      AttemptIsDisciplined(Changes(Front(attempts)), Last(attempts));
    }
  }

  lemma FailuresAfter(changes: seq<Change>, now: Instant)
    ensures FailuresSince(changes + [Fail(now)]) == FailuresSince(changes) + [now]
    ensures FailuresSince(changes + [Clear]) == []
  {
    assert forall c :: Front(changes + [c]) == changes;
  }

  lemma {:induction false} SpacedIsLong(failures: seq<Instant>, n: nat)
    requires Spaced(failures) && MAX_FAILURES <= n <= |failures|
    ensures (n - MAX_FAILURES) * (LOCKOUT_SECS * NANOS) <= failures[n - 1] - failures[0]
  {
    if n > MAX_FAILURES {
      SpacedIsLong(failures, n - 1);
    }
  }

  /**
   * If no failure is recorded while the limiter is locked, T seconds from the first failure
   * since the last clear see at most 5 + floor(T / 900) of them.  What overlapping attempts do to
   * this bound is the subject of `LoginOverlap`.
   */
  lemma DisciplinedRateBound(changes: seq<Change>, now: Instant)
    requires Disciplined(changes) && FailuresSince(changes) != [] && Last(FailuresSince(changes)) <= now
    ensures |FailuresSince(changes)| <= MAX_FAILURES + AsSecs(FailuresSince(changes)[0], now) / LOCKOUT_SECS
  {
    DisciplinedIsSpaced(changes);
    var failures := FailuresSince(changes);
    if |failures| > MAX_FAILURES {
      SpacedIsLong(failures, |failures|);
      var extra := |failures| - MAX_FAILURES;
      assert extra * (LOCKOUT_SECS * NANOS) <= now - failures[0];
      assert extra * LOCKOUT_SECS <= (now - failures[0]) / NANOS;
    }
  }

  /**
   * A run of whole attempts without a success that spans T seconds from its first recorded
   * failure to `now` records at most 5 + floor(T / 900) failures for the username.
   */
  lemma FailureRateBound(attempts: seq<Attempt>, now: Instant)
    requires Timed(attempts) && Failures(attempts) != []
    requires Last(attempts).stamp <= now
    ensures |Failures(attempts)| <= MAX_FAILURES + AsSecs(Failures(attempts)[0], now) / LOCKOUT_SECS
  {
    AttemptsAreDisciplined(attempts);
    DisciplinedRateBound(Changes(attempts), now);
  }
}
