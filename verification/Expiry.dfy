/**
 * Lazy expiry of keyed tables.
 *
 * The relay has no sweeper task: stale entries are dropped by the next operation that
 * touches the table.  The reference here is a table that drops each entry at the very
 * instant its idle (or age) limit is reached, one clock tick at a time.
 */
module Expiry {
  import opened Common

  /** Uploads and downloads with no activity for this long are stale. */
  const UPLOAD_IDLE_TIMEOUT_SECS: nat := 60

  /** The body of `gc_uploads`, `gc_downloads` and `gc_supervisor`. */
  function Sweep<E>(table: map<string, E>, secs: nat, stampOf: E -> Instant, now: Instant): map<string, E> {
    map id | id in table && AsSecs(stampOf(table[id]), now) < secs :: table[id]
  }

  /** One tick of the reference table: entries whose deadline is this instant disappear. */
  function ExpireAt<E>(table: map<string, E>, secs: nat, stampOf: E -> Instant, tick: Instant): map<string, E> {
    map id | id in table && stampOf(table[id]) + secs * NANOS != tick :: table[id]
  }

  /** The reference table left alone from one instant to a later one. */
  function Elapse<E>(table: map<string, E>, secs: nat, stampOf: E -> Instant, from: Instant, until: Instant): map<string, E>
    requires from <= until
    decreases until
  {
    if from == until then table
    else ExpireAt(Elapse(table, secs, stampOf, from, until - 1), secs, stampOf, until)
  }

  /** A reference table together with the instant up to which it has been expired. */
  datatype Reference<E> = Reference(clock: Instant, table: map<string, E>)

  /** No entry of the table has reached its deadline. */
  ghost predicate AllAlive<E>(table: map<string, E>, secs: nat, stampOf: E -> Instant, now: Instant) {
    forall id :: id in table ==> AsSecs(stampOf(table[id]), now) < secs
  }

  lemma SweepIsSubmap<E>(table: map<string, E>, secs: nat, stampOf: E -> Instant, now: Instant)
    ensures |Sweep(table, secs, stampOf, now)| <= |table|
  {
    SubmapIsSmaller(Sweep(table, secs, stampOf, now), table);
  }

  lemma DeadlineForm<E>(table: map<string, E>, secs: nat, stampOf: E -> Instant)
    requires 0 < secs
    ensures forall id, t: Instant :: id in table ==>
      (AsSecs(stampOf(table[id]), t) < secs <==> t < stampOf(table[id]) + secs * NANOS)
  {
    forall id, t: Instant | id in table
      ensures AsSecs(stampOf(table[id]), t) < secs <==> t < stampOf(table[id]) + secs * NANOS
    {
      AsSecsIsDeadline(stampOf(table[id]), t, secs);
    }
  }

  lemma {:induction false} ElapseKeepsTheLiving<E>(table: map<string, E>, secs: nat, stampOf: E -> Instant,
                                                   from: Instant, until: Instant)
    requires 0 < secs && from <= until
    requires AllAlive(table, secs, stampOf, from)
    ensures Elapse(table, secs, stampOf, from, until) == Sweep(table, secs, stampOf, until)
    decreases until
  {
    DeadlineForm(table, secs, stampOf);
    if from < until {
      ElapseKeepsTheLiving(table, secs, stampOf, from, until - 1);
    }
  }

  /**
   * The simulation step shared by all three tables: if the lazy table, filtered at the last
   * observed instant, is the reference table, then letting the reference table run on to
   * `now` gives exactly what a sweep of the lazy table at `now` gives.
   */
  lemma CatchUp<E>(lazy: map<string, E>, eager: map<string, E>, secs: nat, stampOf: E -> Instant,
                   clock: Instant, now: Instant)
    requires 0 < secs && clock <= now
    requires eager == Sweep(lazy, secs, stampOf, clock)
    ensures Elapse(eager, secs, stampOf, clock, now) == Sweep(lazy, secs, stampOf, now)
  {
    ElapseKeepsTheLiving(eager, secs, stampOf, clock, now);
    DeadlineForm(lazy, secs, stampOf);
  }

  // ---------------------------------------------------------------- reference runs

  /**
   * A table of the broker: how long an entry lives, which of its instants counts, and what an
   * operation does to a table once any sweep is over.
   */
  datatype Rules<!E, !Op, !Out> = Rules(
    secs: nat,
    stampOf: E -> Instant,
    act: (map<string, E>, Event<Op>) -> (map<string, E>, Out))

  function Swept<E, Op, Out>(rules: Rules<E, Op, Out>, table: map<string, E>, now: Instant): map<string, E> {
    Sweep(table, rules.secs, rules.stampOf, now)
  }

  /** The same operations over a table that expires entries on time. */
  function ReferenceStep<E, Op, Out>(rules: Rules<E, Op, Out>, r: Reference<E>, e: Event<Op>): (Reference<E>, Out)
    requires r.clock <= e.at
  {
    var (table, outcome) := rules.act(Elapse(r.table, rules.secs, rules.stampOf, r.clock, e.at), e);
    (Reference(e.at, table), outcome)
  }

  function ReferenceRun<E, Op, Out>(rules: Rules<E, Op, Out>, evs: seq<Event<Op>>): (r: Reference<E>)
    requires Timed(evs)
    ensures r.clock == if evs == [] then 0 else Last(evs).at
  {
    if evs == [] then Reference(0, map[])
    else ReferenceStep(rules, ReferenceRun(rules, Front(evs)), Last(evs)).0
  }

  /** The reference decision on the final event of a run. */
  function ReferenceFinal<E, Op, Out>(rules: Rules<E, Op, Out>, evs: seq<Event<Op>>): Out
    requires evs != [] && Timed(evs)
  {
    ReferenceStep(rules, ReferenceRun(rules, Front(evs)), Last(evs)).1
  }

  /** The simulation relation: the lazy table filtered at the clock is the reference table. */
  ghost predicate Simulates<E, Op, Out>(rules: Rules<E, Op, Out>, lazy: map<string, E>, evs: seq<Event<Op>>)
    requires Timed(evs)
  {
    ReferenceRun(rules, evs).table == Swept(rules, lazy, ReferenceRun(rules, evs).clock)
  }

  /**
   * One step of the simulation, for any table: it goes on if the lazy step, filtered at its
   * instant, does what the operation does to the filtered table; and the reference decision is
   * the one made on the filtered table.
   */
  lemma SimulationStep<E, Op, Out>(rules: Rules<E, Op, Out>, lazy: map<string, E>, next: map<string, E>, evs: seq<Event<Op>>)
    requires 0 < rules.secs && evs != [] && Timed(evs) && Simulates(rules, lazy, Front(evs))
    requires Swept(rules, next, Last(evs).at) == rules.act(Swept(rules, lazy, Last(evs).at), Last(evs)).0
    ensures Simulates(rules, next, evs)
    ensures ReferenceFinal(rules, evs) == rules.act(Swept(rules, lazy, Last(evs).at), Last(evs)).1
  {
    var r := ReferenceRun(rules, Front(evs));
    CatchUp(lazy, r.table, rules.secs, rules.stampOf, r.clock, Last(evs).at);
  }
}
