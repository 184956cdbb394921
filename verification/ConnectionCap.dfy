/**
 * The cap on connections in all (src/broker.rs).  Acquiring a slot loads the counter and, below
 * the cap, adds to it; the two are separate accesses, and those of other connections may fall
 * between them.  A step that is not enabled leaves the state alone.
 */
module ConnectionCap {
  import opened Common

  const MAX_TOTAL_CONNECTIONS: nat := 50

  datatype Step = Load | Add | Release

  datatype State = State(
    total: nat,    // the counter
    open: nat,     // calls that found room and have not added yet
    peak: nat)     // the most there have been at once

  const Initial := State(0, 0, 0)

  function Next(s: State, step: Step): State {
    match step
    case Load =>
      if s.total >= MAX_TOTAL_CONNECTIONS then s
      else s.(open := s.open + 1, peak := if s.peak < s.open + 1 then s.open + 1 else s.peak)
    case Add => if s.open == 0 then s else s.(total := s.total + 1, open := s.open - 1)
    case Release => if s.total == 0 then s else s.(total := s.total - 1)
  }

  function Run(steps: seq<Step>): State {
    if steps == [] then Initial else Next(Run(Front(steps)), Last(steps))
  }

  /** Slots taken and given back so far. */
  function Taken(steps: seq<Step>): nat {
    if steps == [] then 0 else Taken(Front(steps)) + (if Last(steps).Add? && Run(Front(steps)).open > 0 then 1 else 0)
  }

  function Returned(steps: seq<Step>): nat {
    if steps == [] then 0 else Returned(Front(steps)) + (if Last(steps).Release? && Run(Front(steps)).total > 0 then 1 else 0)
  }

  /** The counter is the slots taken less those given back, and a call finds room if and only if that is below 50. */
  lemma {:induction false} CountIsHistory(steps: seq<Step>)
    ensures Run(steps).total == Taken(steps) - Returned(steps)
    ensures Next(Run(steps), Load).open == Run(steps).open + if Taken(steps) - Returned(steps) < 50 then 1 else 0
  {
    if steps != [] {
      CountIsHistory(Front(steps));
    }
  }

  /** With at most k calls between load and add at a time, there are at most 49 + k connections. */
  lemma {:induction false} TotalBound(steps: seq<Step>, k: nat)
    requires Run(steps).peak <= k
    ensures Run(steps).open <= Run(steps).peak
    ensures Run(steps).total + Run(steps).open <= 49 + k
  {
    if steps != [] {
      TotalBound(Front(steps), k);
    }
  }

  function Times(step: Step, n: nat): seq<Step> {
    if n == 0 then [] else Times(step, n - 1) + [step]
  }

  lemma RunStep(steps: seq<Step>, step: Step)
    ensures Run(steps + [step]) == Next(Run(steps), step)
  {
    assert Front(steps + [step]) == steps;
  }

  lemma {:induction false} LoadsPass(steps: seq<Step>, n: nat)
    requires Run(steps).total < MAX_TOTAL_CONNECTIONS && Run(steps).open == 0
    ensures
      var s := Run(steps);
      Run(steps + Times(Load, n)) == State(s.total, n, if s.peak < n then n else s.peak)
  {
    if n == 0 {
      assert steps + Times(Load, n) == steps;
    } else {
      LoadsPass(steps, n - 1);
      RunStep(steps + Times(Load, n - 1), Load);
      assert steps + Times(Load, n) == steps + Times(Load, n - 1) + [Load];
    }
  }

  lemma {:induction false} AddsCount(steps: seq<Step>, n: nat)
    requires n <= Run(steps).open
    ensures Run(steps + Times(Add, n)) == State(Run(steps).total + n, Run(steps).open - n, Run(steps).peak)
  {
    if n == 0 {
      assert steps + Times(Add, n) == steps;
    } else {
      AddsCount(steps, n - 1);
      RunStep(steps + Times(Add, n - 1), Add);
      assert steps + Times(Add, n) == steps + Times(Add, n - 1) + [Add];
    }
  }

  /** Calls that all load before any of them adds. */
  lemma FlightLands(steps: seq<Step>, n: nat)
    requires Run(steps).total < MAX_TOTAL_CONNECTIONS && Run(steps).open == 0
    ensures
      var s := Run(steps);
      Run(steps + Times(Load, n) + Times(Add, n)) == State(s.total + n, 0, if s.peak < n then n else s.peak)
  {
    LoadsPass(steps, n);
    AddsCount(steps + Times(Load, n), n);
  }

  /** Connections that are accepted one after another. */
  function Singles(n: nat): seq<Step> {
    if n == 0 then [] else Singles(n - 1) + Times(Load, 1) + Times(Add, 1)
  }

  lemma {:induction false} SinglesAccepted(n: nat)
    requires n <= MAX_TOTAL_CONNECTIONS
    ensures Run(Singles(n)) == State(n, 0, if n == 0 then 0 else 1)
  {
    if n > 0 {
      SinglesAccepted(n - 1);
      FlightLands(Singles(n - 1), 1);
    }
  }

  /** One short of the cap, then k at once. */
  function Crowd(k: nat): seq<Step> {
    Singles(MAX_TOTAL_CONNECTIONS - 1) + Times(Load, k) + Times(Add, k)
  }

  /** For every k that bound is reached. */
  lemma TotalReached(k: nat)
    requires 0 < k
    ensures Run(Crowd(k)).peak == k && Run(Crowd(k)).total == 49 + k
  {
    SinglesAccepted(MAX_TOTAL_CONNECTIONS - 1);
    FlightLands(Singles(MAX_TOTAL_CONNECTIONS - 1), k);
  }

  /** The cap holds of every run with at most k calls between load and add at a time, exactly for k up to one. */
  lemma CapExactly(k: nat)
    ensures (forall steps :: Run(steps).peak <= k ==> Run(steps).total <= 50) <==> k <= 1
  {
    if k <= 1 {
      forall steps | Run(steps).peak <= k ensures Run(steps).total <= 50 {
        TotalBound(steps, k);
      }
    } else {
      TotalReached(k);
    }
  }
}
