/**
 * Login attempts of one username that overlap (src/server.rs, src/auth.rs).
 *
 * An attempt calls the limiter twice: it is checked when it arrives, and what came of it is
 * recorded once its credentials have been verified.  Calls of other attempts may fall between
 * the two, and each reads the clock under the limiter's lock, so readings never go back.  A
 * turn is one such call; a turn that cannot be taken now leaves the state alone.
 */
module LoginOverlap {
  import opened Common
  import opened AuthLimiter

  const LOCKOUT: nat := LOCKOUT_SECS * NANOS

  datatype Turn =
    | Check(now: Instant)    // `check_rate_limit`
    | Record(now: Instant)   // `record_failure`
    | Succeed                // `clear_rate_limit`
    | GiveUp                 // no password or no code: nothing is recorded

  datatype State = State(
    changes: seq<Change>,    // what was done to the limiter, whose entry is `Changed(changes)`
    open: nat,               // attempts that were let through and are not over
    peak: nat,               // the most there have been at once
    clock: Instant)

  const Initial := State([], 0, 0, 0)

  predicate Enabled(s: State, turn: Turn) {
    match turn
    case Check(now) => s.clock <= now
    case Record(now) => s.open > 0 && s.clock <= now
    case Succeed => s.open > 0
    case GiveUp => s.open > 0
  }

  function Max(a: nat, b: nat): nat {
    if a < b then b else a
  }

  function Act(s: State, turn: Turn): State
    requires Enabled(s, turn)
  {
    match turn
    case Check(now) =>
      if Locked(Changed(s.changes), now) then s.(clock := now)
      else s.(open := s.open + 1, peak := Max(s.peak, s.open + 1), clock := now)
    case Record(now) => s.(changes := s.changes + [Fail(now)], open := s.open - 1, clock := now)
    case Succeed => s.(changes := s.changes + [Clear], open := s.open - 1)
    case GiveUp => s.(open := s.open - 1)
  }

  function Step(s: State, turn: Turn): State {
    if Enabled(s, turn) then Act(s, turn) else s
  }

  function Run(turns: seq<Turn>): State {
    if turns == [] then Initial else Step(Run(Front(turns)), Last(turns))
  }

  lemma RunStep(turns: seq<Turn>, turn: Turn)
    ensures Run(turns + [turn]) == Step(Run(turns), turn)
  {
    assert Front(turns + [turn]) == turns;
  }

  /** When failures were recorded since the last success. */
  function Since(s: State): seq<Instant> {
    FailuresSince(s.changes)
  }

  // ---------------------------------------------------------------- attempts in turn

  /** How an attempt that was let through ends. */
  function Ending(verdict: Verdict, stamp: Instant): Turn {
    match verdict
    case Failure => Record(stamp)
    case Success => Succeed
    case _ => GiveUp
  }

  /** The calls of one whole attempt, as its verdict has it. */
  function Calls(verdict: Verdict, a: Attempt): seq<Turn> {
    if verdict.RateLimited? then [Check(a.at)] else [Check(a.at)] + [Ending(verdict, a.stamp)]
  }

  function Turns(attempts: seq<Attempt>): seq<Turn> {
    if attempts == [] then []
    else Turns(Front(attempts)) + Calls(Decide(Changed(Changes(Front(attempts))), Last(attempts)), Last(attempts))
  }

  /** No attempt is open, and there never were two. */
  predicate Quiet(s: State) {
    s.open == 0 && s.peak <= 1
  }

  lemma WholeAttempt(s: State, a: Attempt)
    requires Quiet(s) && s.clock <= a.at <= a.stamp
    ensures
      var verdict := Decide(Changed(s.changes), a);
      var checked := Step(s, Check(a.at));
      var t := if verdict.RateLimited? then checked else Step(checked, Ending(verdict, a.stamp));
      t.changes == Extended(s.changes, a) && Quiet(t) && t.clock <= a.stamp
  {
  }

  lemma RunCalls(turns: seq<Turn>, verdict: Verdict, a: Attempt)
    ensures
      var checked := Step(Run(turns), Check(a.at));
      Run(turns + Calls(verdict, a)) == if verdict.RateLimited? then checked else Step(checked, Ending(verdict, a.stamp))
  {
    RunStep(turns, Check(a.at));
    if !verdict.RateLimited? {
      RunStep(turns + [Check(a.at)], Ending(verdict, a.stamp));
      assert turns + Calls(verdict, a) == turns + [Check(a.at)] + [Ending(verdict, a.stamp)];
    }
  }

  /** Whole attempts one after another are a run with at most one open at a time. */
  lemma {:induction false} InTurn(attempts: seq<Attempt>)
    requires AuthLimiter.Timed(attempts)
    ensures
      var s := Run(Turns(attempts));
      && s.changes == Changes(attempts) && Quiet(s)
      && s.clock <= (if attempts == [] then 0 else Last(attempts).stamp)
  {
    if attempts != [] {
      InTurn(Front(attempts));
      assert |attempts| > 1 ==> attempts[|attempts| - 2].stamp <= Last(attempts).at;
      var past, a := Changes(Front(attempts)), Last(attempts);
      RunCalls(Turns(Front(attempts)), Decide(Changed(past), a), a);
      WholeAttempt(Run(Turns(Front(attempts))), a);
    }
  }

  // ---------------------------------------------------------------- the bound

  /** From the fifth on, a failure and the k-th after it are a lockout apart. */
  ghost predicate SpacedBy(failures: seq<Instant>, k: nat) {
    && (forall i, j :: 0 <= i <= j < |failures| ==> failures[i] <= failures[j])
    && (forall i :: MAX_FAILURES - 1 <= i < |failures| - k ==> failures[i] + LOCKOUT <= failures[i + k])
  }

  /**
   * While the lockout of a failure lasts, the failures since it and the attempts still open are
   * together fewer than k: nothing more is let through.
   */
  ghost predicate Contained(failures: seq<Instant>, open: nat, clock: Instant, k: nat) {
    forall i :: MAX_FAILURES - 1 <= i < |failures| ==>
      failures[i] + LOCKOUT <= clock || |failures| - i + open <= k
  }

  ghost predicate Kept(s: State, k: nat) {
    && s.open <= s.peak
    && (Since(s) != [] ==> 0 < s.peak && Last(Since(s)) <= s.clock)
    && (s.peak <= k ==> SpacedBy(Since(s), k) && Contained(Since(s), s.open, s.clock, k))
  }

  lemma CheckKeeps(s: State, now: Instant, k: nat)
    requires Kept(s, k) && s.clock <= now
    ensures Kept(Act(s, Check(now)), k)
  {
    RefusedExactly(s.changes, now);
    if !Locked(Changed(s.changes), now) && s.peak <= k && |Since(s)| >= MAX_FAILURES {
      assert forall i :: 0 <= i < |Since(s)| ==> Since(s)[i] <= Since(s)[|Since(s)| - 1];
    }
  }

  lemma RecordSpaces(failures: seq<Instant>, open: nat, clock: Instant, now: Instant, k: nat)
    requires SpacedBy(failures, k) && Contained(failures, open, clock, k)
    requires 0 < open <= k && clock <= now && (failures != [] ==> Last(failures) <= clock)
    ensures SpacedBy(failures + [now], k) && Contained(failures + [now], open - 1, now, k)
  {
    var all := failures + [now];
    forall i | MAX_FAILURES - 1 <= i < |all| - k ensures all[i] + LOCKOUT <= all[i + k] {
      assert all[i] == failures[i];
    }
  }

  lemma RecordKeeps(s: State, now: Instant, k: nat)
    requires Kept(s, k) && Enabled(s, Record(now))
    ensures Kept(Act(s, Record(now)), k)
  {
    FailuresAfter(s.changes, now);
    if s.peak <= k {
      RecordSpaces(Since(s), s.open, s.clock, now, k);
    }
  }

  lemma {:induction false} AlwaysKept(turns: seq<Turn>, k: nat)
    ensures Kept(Run(turns), k)
  {
    if turns != [] {
      AlwaysKept(Front(turns), k);
      var s, turn := Run(Front(turns)), Last(turns);
      if Enabled(s, turn) {
        match turn
        case Check(now) => CheckKeeps(s, now, k);
        case Record(now) => RecordKeeps(s, now, k);
        case Succeed => FailuresAfter(s.changes, s.clock);
        case GiveUp =>
      }
    }
  }

  lemma {:induction false} Chain(failures: seq<Instant>, k: nat, q: nat)
    requires SpacedBy(failures, k) && MAX_FAILURES - 1 + q * k < |failures|
    ensures 0 <= q * k && failures[MAX_FAILURES - 1] + q * LOCKOUT <= failures[MAX_FAILURES - 1 + q * k]
  {
    if q > 0 {
      assert q * k == (q - 1) * k + k;
      Chain(failures, k, q - 1);
    }
  }

  /**
   * With at most k attempts open at a time, T seconds from the first failure since the last
   * success see at most 4 + k * (1 + floor(T / 900)) failures.
   */
  lemma OverlapBound(turns: seq<Turn>, now: Instant, k: nat)
    requires Run(turns).peak <= k && Since(Run(turns)) != [] && Last(Since(Run(turns))) <= now
    ensures
      var failures := Since(Run(turns));
      |failures| <= MAX_FAILURES - 1 + k * (1 + AsSecs(failures[0], now) / LOCKOUT_SECS)
  {
    AlwaysKept(turns, k);
    var failures := Since(Run(turns));
    SpacedBound(failures, now, k);
  }

  lemma SpacedBound(failures: seq<Instant>, now: Instant, k: nat)
    requires 0 < k && SpacedBy(failures, k) && failures != [] && Last(failures) <= now
    ensures |failures| <= MAX_FAILURES - 1 + k * (1 + AsSecs(failures[0], now) / LOCKOUT_SECS)
  {
    var secs := AsSecs(failures[0], now);
    var rounds := secs / LOCKOUT_SECS;
    if |failures| >= MAX_FAILURES {
      var rest := |failures| - MAX_FAILURES;
      var q := rest / k;
      assert rest == q * k + rest % k;
      Chain(failures, k, q);
      assert q * LOCKOUT <= now - failures[0];
      assert q * LOCKOUT_SECS <= secs;
      assert q <= rounds;
      Scale(k, q, rounds);
    } else {
      Scale(k, 0, rounds);
    }
  }

  lemma Scale(k: nat, q: nat, n: nat)
    requires q <= n
    ensures q * k + k <= k * (1 + n)
  {
    assert k * (1 + n) == q * k + k + k * (n - q);
    assert 0 <= k * (n - q);
  }

  // ---------------------------------------------------------------- the bound is reached

  function Checks(j: nat, now: Instant): seq<Turn> {
    if j == 0 then [] else Checks(j - 1, now) + [Check(now)]
  }

  function Records(j: nat, now: Instant): seq<Turn> {
    if j == 0 then [] else Records(j - 1, now) + [Record(now)]
  }

  function Repeat(now: Instant, j: nat): seq<Instant> {
    seq(j, _ => now)
  }

  /** Attempts that are all checked before any of them fails. */
  function Flight(j: nat, now: Instant): seq<Turn> {
    Checks(j, now) + Records(j, now)
  }

  /** No attempt is open, and the next one will be let through. */
  predicate Idle(s: State, now: Instant) {
    s.open == 0 && s.clock <= now && !Locked(Changed(s.changes), now)
  }

  function Checked(s: State, j: nat, now: Instant): State {
    s.(open := j, peak := Max(s.peak, j), clock := if j == 0 then s.clock else now)
  }

  lemma OneMoreChecked(s: State, j: nat, now: Instant)
    requires Idle(s, now)
    ensures Step(Checked(s, j, now), Check(now)) == Checked(s, j + 1, now)
  {
  }

  lemma {:induction false} ChecksPass(turns: seq<Turn>, j: nat, now: Instant)
    requires Idle(Run(turns), now)
    ensures Run(turns + Checks(j, now)) == Checked(Run(turns), j, now)
  {
    if j == 0 {
      assert turns + Checks(j, now) == turns;
    } else {
      ChecksPass(turns, j - 1, now);
      OneMoreChecked(Run(turns), j - 1, now);
      RunStep(turns + Checks(j - 1, now), Check(now));
      assert turns + Checks(j, now) == turns + Checks(j - 1, now) + [Check(now)];
    }
  }

  lemma {:induction false} RecordsAdd(turns: seq<Turn>, j: nat, now: Instant)
    requires j <= Run(turns).open && Run(turns).clock <= now
    ensures
      var s, t := Run(turns), Run(turns + Records(j, now));
      && t.open == s.open - j && t.peak == s.peak && t.clock == (if j == 0 then s.clock else now)
      && Since(t) == Since(s) + Repeat(now, j)
  {
    if j == 0 {
      assert turns + Records(j, now) == turns;
    } else {
      RecordsAdd(turns, j - 1, now);
      var before := turns + Records(j - 1, now);
      RunStep(before, Record(now));
      FailuresAfter(Run(before).changes, now);
      assert turns + Records(j, now) == before + [Record(now)];
      assert Since(Run(turns)) + Repeat(now, j) == Since(Run(turns)) + Repeat(now, j - 1) + [now];
    }
  }

  lemma FlightLands(turns: seq<Turn>, j: nat, now: Instant)
    requires 0 < j && Idle(Run(turns), now)
    ensures
      var s, t := Run(turns), Run(turns + Flight(j, now));
      && t.open == 0 && t.peak == Max(s.peak, j) && t.clock == now
      && Since(t) == Since(s) + Repeat(now, j)
      && |Since(t)| == |Since(s)| + j && Last(Since(t)) == now
  {
    ChecksPass(turns, j, now);
    RecordsAdd(turns + Checks(j, now), j, now);
    assert turns + Flight(j, now) == turns + Checks(j, now) + Records(j, now);
  }

  /** Whole attempts that fail at the first instant, one after another. */
  function Singles(m: nat): seq<Turn> {
    if m == 0 then [] else Singles(m - 1) + Flight(1, 0)
  }

  lemma {:induction false} SinglesFail(m: nat)
    requires m < MAX_FAILURES
    ensures
      var s := Run(Singles(m));
      Quiet(s) && s.clock == 0 && Since(s) == Repeat(0, m)
  {
    if m > 0 {
      SinglesFail(m - 1);
      var turns := Singles(m - 1);
      RefusedExactly(Run(turns).changes, 0);
      FlightLands(turns, 1, 0);
      assert Singles(m) == turns + Flight(1, 0) && Repeat(0, m) == Repeat(0, m - 1) + Repeat(0, 1);
    }
  }

  /** Four whole attempts, then k at once whenever the lockout is over. */
  function Rounds(k: nat, n: nat): seq<Turn> {
    if n == 0 then Singles(MAX_FAILURES - 1) + Flight(k, 0) else Rounds(k, n - 1) + Flight(k, RoundAt(n))
  }

  /** The instant of the n-th round, and the failures up to and with it. */
  function RoundAt(n: nat): Instant {
    if n == 0 then 0 else RoundAt(n - 1) + LOCKOUT
  }

  function RoundCount(k: nat, n: nat): nat {
    if n == 0 then MAX_FAILURES - 1 + k else RoundCount(k, n - 1) + k
  }

  lemma {:induction false} RoundNumbers(k: nat, n: nat)
    ensures RoundAt(n) == n * LOCKOUT && RoundCount(k, n) == MAX_FAILURES - 1 + k * (1 + n)
  {
    if n > 0 {
      RoundNumbers(k, n - 1);
      assert n * LOCKOUT == (n - 1) * LOCKOUT + LOCKOUT && k * (1 + n) == k * (1 + (n - 1)) + k;
    }
  }

  /** A number of failures, from the first instant to `at`, with k attempts open at most. */
  predicate Reached(s: State, k: nat, at: Instant, count: nat) {
    && s.open == 0 && s.peak == k && s.clock == at
    && |Since(s)| == count > 0 && Since(s)[0] == 0 && Last(Since(s)) == at
  }

  lemma FirstRound(k: nat)
    requires 0 < k
    ensures Reached(Run(Rounds(k, 0)), k, 0, MAX_FAILURES - 1 + k)
  {
    SinglesFail(MAX_FAILURES - 1);
    RefusedExactly(Run(Singles(MAX_FAILURES - 1)).changes, 0);
    FlightLands(Singles(MAX_FAILURES - 1), k, 0);
  }

  lemma NextRound(turns: seq<Turn>, k: nat, at: Instant, count: nat)
    requires 0 < k && Reached(Run(turns), k, at, count)
    ensures Reached(Run(turns + Flight(k, at + LOCKOUT)), k, at + LOCKOUT, count + k)
  {
    RefusedExactly(Run(turns).changes, at + LOCKOUT);
    FlightLands(turns, k, at + LOCKOUT);
  }

  /** The state a number of rounds leads to is the one reached. */
  ghost predicate RoundsReach(turns: seq<Turn>, k: nat, at: Instant, count: nat) {
    Reached(Run(turns), k, at, count)
  }

  lemma {:induction false} RoundsFail(k: nat, n: nat)
    requires 0 < k
    ensures RoundsReach(Rounds(k, n), k, RoundAt(n), RoundCount(k, n))
  {
    if n == 0 {
      FirstRound(k);
    } else {
      RoundsFail(k, n - 1);
      var turns, at, count := Rounds(k, n - 1), RoundAt(n - 1), RoundCount(k, n - 1);
      NextRound(turns, k, at, count);
      assert Rounds(k, n) == turns + Flight(k, at + LOCKOUT) && RoundAt(n) == at + LOCKOUT && RoundCount(k, n) == count + k;
    }
  }

  /** For every k and every number of lockouts there is a run with exactly as many failures as the bound allows. */
  lemma OverlapBoundReached(k: nat, n: nat)
    requires 0 < k
    ensures
      var s := Run(Rounds(k, n));
      && s.peak == k && Since(s) != [] && Last(Since(s)) <= s.clock
      && AsSecs(Since(s)[0], s.clock) == n * LOCKOUT_SECS
      && |Since(s)| == MAX_FAILURES - 1 + k * (1 + n)
  {
    RoundsFail(k, n);
    RoundNumbers(k, n);
    SecondsOf(n);
  }

  lemma SecondsOf(n: nat)
    ensures AsSecs(0, n * LOCKOUT) == n * LOCKOUT_SECS
  {
  }

  /** The rate the limiter is meant to enforce: 5 + floor(T / 900) failures in T seconds. */
  predicate RateHolds(s: State, now: Instant) {
    Since(s) != [] && Last(Since(s)) <= now ==>
      |Since(s)| <= MAX_FAILURES + AsSecs(Since(s)[0], now) / LOCKOUT_SECS
  }

  /**
   * The rate holds of every run with at most k attempts open at a time if and only if k is at
   * most one.
   */
  lemma RateExactly(k: nat)
    ensures (forall turns, now :: Run(turns).peak <= k ==> RateHolds(Run(turns), now)) <==> k <= 1
  {
    if k <= 1 {
      forall turns, now | Run(turns).peak <= k ensures RateHolds(Run(turns), now) {
        if Since(Run(turns)) != [] && Last(Since(Run(turns))) <= now {
          OverlapBound(turns, now, 1);
        }
      }
    } else {
      OverlapBoundReached(2, 0);
      assert Run(Rounds(2, 0)).peak <= k && !RateHolds(Run(Rounds(2, 0)), Run(Rounds(2, 0)).clock);
    }
  }
}
