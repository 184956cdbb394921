/** The per-address limit on new WebSocket connections (src/server.rs). */
module ConnectionLimiter {
  import opened Common

  const WS_RATE_LIMIT_PER_MINUTE: nat := 10
  const WINDOW: nat := 60 * NANOS

  datatype Attempt = Attempt(ip: string, now: Instant)

  /** The timestamps later than a bound, in order. */
  function After(times: seq<Instant>, bound: int): seq<Instant> {
    if times == [] then []
    else if Last(times) > bound then After(Front(times), bound) + [Last(times)]
    else After(Front(times), bound)
  }

  type Limits = map<string, seq<Instant>>

  function Times(limits: Limits, ip: string): seq<Instant> {
    if ip in limits then limits[ip] else []
  }

  function Allows(limits: Limits, a: Attempt): bool {
    |After(Times(limits, a.ip), a.now - WINDOW)| < WS_RATE_LIMIT_PER_MINUTE
  }

  function Next(limits: Limits, a: Attempt): Limits {
    var recent := After(Times(limits, a.ip), a.now - WINDOW);
    limits[a.ip := if Allows(limits, a) then recent + [a.now] else recent]
  }

  /** The limiter as the server holds it. */
  class Limiter {
    var limits: Limits

    constructor ()
      ensures limits == map[]
    {
      limits := map[];
    }

    /** `check_ws_rate_limit` */
    method Check(ip: string, now: Instant) returns (allowed: bool)
      modifies this
      ensures limits == Next(old(limits), Attempt(ip, now))
      ensures allowed == Allows(old(limits), Attempt(ip, now))
    {
      var timestamps := if ip in limits then limits[ip] else [];
      var kept := [];
      var i := 0;
      while i < |timestamps|
        invariant 0 <= i <= |timestamps|
        invariant kept == After(timestamps[..i], now - WINDOW)
      {
        assert Front(timestamps[..i + 1]) == timestamps[..i];
        if timestamps[i] > now - WINDOW {
          kept := kept + [timestamps[i]];
        }
        i := i + 1;
      }
      assert timestamps[..|timestamps|] == timestamps;
      if |kept| >= WS_RATE_LIMIT_PER_MINUTE {
        limits := limits[ip := kept];
        return false;
      }
      limits := limits[ip := kept + [now]];
      return true;
    }
  }

  // ---------------------------------------------------------------- history

  function Run(attempts: seq<Attempt>): Limits {
    if attempts == [] then map[] else Next(Run(Front(attempts)), Last(attempts))
  }

  /** Every connection ever accepted from an address. */
  function Accepted(attempts: seq<Attempt>, ip: string): seq<Instant> {
    if attempts == [] then []
    else
      var past := Accepted(Front(attempts), ip);
      if Last(attempts).ip == ip && Allows(Run(Front(attempts)), Last(attempts)) then past + [Last(attempts).now]
      else past
  }

  /** How many instants lie in the half-open window ending at `end`. */
  function InWindow(times: seq<Instant>, end: Instant): nat {
    if times == [] then 0
    else InWindow(Front(times), end) + (if end - 60_000_000_000 < Last(times) <= end then 1 else 0)
  }

  predicate Timed(attempts: seq<Attempt>) {
    forall i, j :: 0 <= i < j < |attempts| ==> attempts[i].now <= attempts[j].now
  }

  lemma {:induction false} AfterAfter(times: seq<Instant>, lower: int, upper: int)
    requires lower <= upper
    ensures After(After(times, lower), upper) == After(times, upper)
  {
    if times != [] {
      AfterAfter(Front(times), lower, upper);
      if Last(times) > lower {
        assert Front(After(Front(times), lower) + [Last(times)]) == After(Front(times), lower);
      }
    }
  }

  lemma AfterAppend(times: seq<Instant>, t: Instant, bound: int)
    ensures After(times + [t], bound) == After(times, bound) + if t > bound then [t] else []
  {
    assert Front(times + [t]) == times;
  }

  /** Pruning at an earlier instant is invisible through the window of a later one. */
  lemma NextThroughWindow(limits: Limits, a: Attempt, now: Instant)
    requires a.now <= now
    ensures After(Times(Next(limits, a), a.ip), now - WINDOW)
         == After(Times(limits, a.ip) + (if Allows(limits, a) then [a.now] else []), now - WINDOW)
  {
    var times := Times(limits, a.ip);
    AfterAfter(times, a.now - WINDOW, now - WINDOW);
    AfterAppend(After(times, a.now - WINDOW), a.now, now - WINDOW);
    AfterAppend(times, a.now, now - WINDOW);
    assert times + [] == times;
  }

  /** The pruned list is the full acceptance history filtered to the window, now and at any later time. */
  lemma {:induction false} PrunedIsHistory(attempts: seq<Attempt>, ip: string, now: Instant)
    requires Timed(attempts)
    requires attempts != [] ==> Last(attempts).now <= now
    ensures After(Times(Run(attempts), ip), now - WINDOW) == After(Accepted(attempts, ip), now - WINDOW)
  {
    if attempts != [] {
      var a, limits, past := Last(attempts), Run(Front(attempts)), Accepted(Front(attempts), ip);
      PrunedIsHistory(Front(attempts), ip, now);
      if a.ip == ip {
        NextThroughWindow(limits, a, now);
        AfterAppend(Times(limits, ip), a.now, now - WINDOW);
        AfterAppend(past, a.now, now - WINDOW);
        assert Times(limits, ip) + [] == Times(limits, ip);
      }
    }
  }

  /** No window holds more than what lies after its start. */
  lemma {:induction false} WindowWithinAfter(times: seq<Instant>, end: Instant, bound: int)
    requires bound <= end - WINDOW
    ensures InWindow(times, end) <= |After(times, bound)|
  {
    if times != [] {
      WindowWithinAfter(Front(times), end, bound);
    }
  }

  lemma WindowAppend(times: seq<Instant>, t: Instant, end: Instant)
    ensures InWindow(times + [t], end) == InWindow(times, end) + if end - 60_000_000_000 < t <= end then 1 else 0
  {
    assert Front(times + [t]) == times;
  }

  /** An accepted attempt finds fewer than ten accepted in any window it falls into. */
  lemma RoomInWindow(attempts: seq<Attempt>, a: Attempt, end: Instant)
    requires Timed(attempts) && (attempts != [] ==> Last(attempts).now <= a.now)
    requires Allows(Run(attempts), a) && a.now <= end
    ensures InWindow(Accepted(attempts, a.ip), end) < WS_RATE_LIMIT_PER_MINUTE
  {
    PrunedIsHistory(attempts, a.ip, a.now);
    WindowWithinAfter(Accepted(attempts, a.ip), end, a.now - WINDOW);
  }

  /** No attempt is later than this. */
  predicate Until(attempts: seq<Attempt>, now: Instant) {
    attempts == [] || (Last(attempts).now <= now && Until(Front(attempts), now))
  }

  /** With nothing later than its end, a window is what lies after its start. */
  lemma {:induction false} AcceptedIsWindow(attempts: seq<Attempt>, ip: string, now: Instant)
    requires Until(attempts, now)
    ensures InWindow(Accepted(attempts, ip), now) == |After(Accepted(attempts, ip), now - WINDOW)|
  {
    if attempts != [] {
      AcceptedIsWindow(Front(attempts), ip, now);
      WindowAppend(Accepted(Front(attempts), ip), Last(attempts).now, now);
      AfterAppend(Accepted(Front(attempts), ip), Last(attempts).now, now - WINDOW);
    }
  }

  /** The pruned list is as long as the window up to now. */
  lemma {:induction false} PrunedIsWindow(attempts: seq<Attempt>, ip: string, now: Instant)
    requires Timed(attempts) && Until(attempts, now)
    ensures |After(Times(Run(attempts), ip), now - WINDOW)| == InWindow(Accepted(attempts, ip), now)
  {
    PrunedIsHistory(attempts, ip, now);
    AcceptedIsWindow(attempts, ip, now);
  }

  /** An attempt is allowed if and only if fewer than ten were accepted in the 60 seconds up to it. */
  lemma {:induction false} AllowedExactly(attempts: seq<Attempt>, a: Attempt)
    requires Timed(attempts) && Until(attempts, a.now)
    ensures Allows(Run(attempts), a) <==> InWindow(Accepted(attempts, a.ip), a.now) < 10
  {
    PrunedIsWindow(attempts, a.ip, a.now);
  }

  /**
   * For every sequence of attempts, no half-open 60-second window holds more than ten accepted
   * connections from one address.
   */
  lemma {:induction false} SlidingWindow(attempts: seq<Attempt>, ip: string, end: Instant)
    requires Timed(attempts)
    ensures InWindow(Accepted(attempts, ip), end) <= 10
  {
    if attempts != [] {
      var a := Last(attempts);
      SlidingWindow(Front(attempts), ip, end);
      if a.ip == ip && Allows(Run(Front(attempts)), a) {
        WindowAppend(Accepted(Front(attempts), ip), a.now, end);
        if a.now <= end {
          RoomInWindow(Front(attempts), a, end);
        }
      }
    }
  }
}
