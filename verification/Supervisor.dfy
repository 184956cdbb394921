/** Pending supervisor queries of one account (src/broker.rs). */
module Supervisor {
  import opened Common
  import opened Expiry

  const MAX_PENDING_SUPERVISOR: nat := 8
  const SUPERVISOR_GC_SECS: nat := 300

  datatype Entry = Entry(owner: Conn, stored: Option<string>, created: Instant)

  type Table = map<string, Entry>

  datatype Reply = Text(text: string) | NotText

  datatype Op =
    | Query(id: string, conn: Conn)
    | Answer(id: string, reply: Reply)

  datatype Outcome =
    | Replay(text: string)
    | Reowned
    | Capacity
    | Forward
    | Delivered(owner: Conn)
    | Stored
    | Unknown

  function Created(e: Entry): Instant {
    e.created
  }

  function Serialized(reply: Reply): string {
    match reply
    case Text(text) => text
    case NotText => ""
  }

  /** `gc_supervisor` */
  function Gc(t: Table, now: Instant): Table {
    Sweep(t, SUPERVISOR_GC_SECS, Created, now)
  }

  /** `begin_supervisor_query` and `resolve_supervisor` once the sweep is over. */
  function Act(t: Table, op: Op, closed: set<Conn>, stamp: Instant): (Table, Outcome) {
    match op
    case Query(id, conn) =>
      if id in t then
        if t[id].stored.Some? then (t - {id}, Replay(t[id].stored.value))
        else (t[id := t[id].(owner := conn)], Reowned)
      else if |t| >= MAX_PENDING_SUPERVISOR then (t, Capacity)
      else (t[id := Entry(conn, None, stamp)], Forward)
    case Answer(id, reply) =>
      if id !in t then (t, Unknown)
      else if t[id].owner !in closed then (t - {id}, Delivered(t[id].owner))
      else (t[id := t[id].(stored := Some(Serialized(reply)))], Stored)
  }

  function Step(t: Table, e: Event<Op>): (Table, Outcome) {
    Act(Gc(t, e.at), e.op, e.closed, e.stamp)
  }

  function Run(evs: seq<Event<Op>>): Table {
    if evs == [] then map[] else Step(Run(Front(evs)), Last(evs)).0
  }

  /** The outcome of the final event of a run. */
  function Final(evs: seq<Event<Op>>): Outcome
    requires evs != []
  {
    Step(Run(Front(evs)), Last(evs)).1
  }

  // ---------------------------------------------------------------- conservation, at most once

  datatype Tally = Tally(forwarded: nat, delivered: nat, replayed: nat, swept: nat)

  /** The sweep ends a query if the table it leaves no longer has it. */
  function SweptOut(tally: Tally, id: string, before: Table, found: Table): Tally {
    if id in before && id !in found then tally.(swept := tally.swept + 1) else tally
  }

  /** How one more operation, with its outcome, changes the tally of an id. */
  function Tallied(tally: Tally, id: string, op: Op, outcome: Outcome): Tally {
    if op.id != id then tally
    else if outcome.Forward? then tally.(forwarded := tally.forwarded + 1)
    else if outcome.Delivered? then tally.(delivered := tally.delivered + 1)
    else if outcome.Replay? then tally.(replayed := tally.replayed + 1)
    else tally
  }

  function TallyOf(evs: seq<Event<Op>>, id: string): Tally {
    if evs == [] then Tally(0, 0, 0, 0)
    else
      var t, e := Run(Front(evs)), Last(evs);
      Tallied(SweptOut(TallyOf(Front(evs), id), id, t, Gc(t, e.at)), id, e.op, Final(evs))
  }

  function Answers(tally: Tally): nat {
    tally.delivered + tally.replayed
  }

  predicate Balanced(tally: Tally, pending: bool) {
    tally.forwarded == tally.delivered + tally.replayed + tally.swept + (if pending then 1 else 0)
  }

  lemma ActBalances(tally: Tally, id: string, t: Table, op: Op, closed: set<Conn>, stamp: Instant)
    requires Balanced(tally, id in t)
    ensures Balanced(Tallied(tally, id, op, Act(t, op, closed, stamp).1), id in Act(t, op, closed, stamp).0)
  {
  }

  /** Every query forwarded to the desktop is answered once, swept, or still pending. */
  lemma {:induction false} Conservation(evs: seq<Event<Op>>, id: string)
    ensures Balanced(TallyOf(evs, id), id in Run(evs))
  {
    if evs != [] {
      Conservation(Front(evs), id);
      var t, e := Run(Front(evs)), Last(evs);
      ActBalances(SweptOut(TallyOf(Front(evs), id), id, t, Gc(t, e.at)), id, Gc(t, e.at), e.op, e.closed, e.stamp);
    }
  }

  lemma {:induction false} SweptGrows(evs: seq<Event<Op>>, n: nat, id: string)
    requires n <= |evs|
    ensures TallyOf(evs[..n], id).swept <= TallyOf(evs, id).swept
  {
    if n == |evs| {
      assert evs[..n] == evs;
    } else {
      assert Front(evs)[..n] == evs[..n];
      SweptGrows(Front(evs), n, id);
    }
  }

  /**
   * No forwarded query is answered twice: over any stretch of a run in which an id is not
   * forwarded again, it is answered at most once, whoever re-owns it and however often the
   * desktop repeats its reply; and if it was not pending at the start, not at all.
   */
  lemma AnsweredAtMostOnce(evs: seq<Event<Op>>, n: nat, id: string)
    requires n <= |evs|
    requires TallyOf(evs, id).forwarded == TallyOf(evs[..n], id).forwarded
    ensures Answers(TallyOf(evs, id)) <= Answers(TallyOf(evs[..n], id)) + (if id in Run(evs[..n]) then 1 else 0)
  {
    Conservation(evs, id);
    Conservation(evs[..n], id);
    SweptGrows(evs, n, id);
  }

  // ---------------------------------------------------------------- parked replies

  /** A parked reply belongs to a connection that is gone. */
  lemma {:induction false} ParkedMeansGone(evs: seq<Event<Op>>, id: string)
    requires ClosedGrows(evs)
    ensures id in Run(evs) && Run(evs)[id].stored.Some? ==> evs != [] && Run(evs)[id].owner in Last(evs).closed
  {
    if evs != [] {
      ParkedMeansGone(Front(evs), id);
    }
  }

  /** The connection that issued a query most recently. */
  function LatestAsker(evs: seq<Event<Op>>, id: string): Option<Conn> {
    if evs == [] then None
    else if Last(evs).op.Query? && Last(evs).op.id == id then Some(Last(evs).op.conn)
    else LatestAsker(Front(evs), id)
  }

  lemma {:induction false} OwnerIsLatestAsker(evs: seq<Event<Op>>, id: string)
    ensures id in Run(evs) ==> LatestAsker(evs, id) == Some(Run(evs)[id].owner)
  {
    if evs != [] {
      OwnerIsLatestAsker(Front(evs), id);
    }
  }

  /** A direct reply goes to the connection that asked most recently, and that one is not gone. */
  lemma DeliveredToLatestAsker(evs: seq<Event<Op>>)
    requires evs != [] && Final(evs).Delivered?
    ensures LatestAsker(evs, Last(evs).op.id) == Some(Final(evs).owner)
    ensures Final(evs).owner !in Last(evs).closed
  {
    OwnerIsLatestAsker(Front(evs), Last(evs).op.id);
  }

  /** When a query was last forwarded under an id. */
  function ForwardedAt(evs: seq<Event<Op>>, id: string): Instant {
    if evs == [] then 0
    else if Last(evs).op.id == id && Final(evs) == Forward then Last(evs).stamp
    else ForwardedAt(Front(evs), id)
  }

  /** A query lives for 300 seconds from its forward: neither re-owning nor parking prolongs it. */
  lemma {:induction false} AgeCountsFromForward(evs: seq<Event<Op>>, id: string)
    ensures id in Run(evs) ==> Run(evs)[id].created == ForwardedAt(evs, id)
  {
    if evs != [] {
      AgeCountsFromForward(Front(evs), id);
    }
  }

  /** The text of the latest reply the desktop sent for an id. */
  function LatestReply(evs: seq<Event<Op>>, id: string): Option<string> {
    if evs == [] then None
    else if Last(evs).op.Answer? && Last(evs).op.id == id then
      Some(if Last(evs).op.reply.Text? then Last(evs).op.reply.text else "")
    else LatestReply(Front(evs), id)
  }

  lemma {:induction false} ParkedIsLatest(evs: seq<Event<Op>>, id: string)
    ensures id in Run(evs) && Run(evs)[id].stored.Some? ==> Run(evs)[id].stored == LatestReply(evs, id)
  {
    if evs != [] {
      ParkedIsLatest(Front(evs), id);
    }
  }

  /** What a re-issued query is handed is the desktop's latest reply for that id. */
  lemma ReplayIsLatest(evs: seq<Event<Op>>)
    requires evs != [] && Final(evs).Replay?
    ensures LatestReply(Front(evs), Last(evs).op.id) == Some(Final(evs).text)
  {
    ParkedIsLatest(Front(evs), Last(evs).op.id);
  }

  /**
   * Once parked, a reply is never overtaken by a direct delivery: repeated desktop replies
   * find the owner still gone and park again, until the id is re-issued or swept.
   */
  lemma ParkedIsNotDelivered(evs: seq<Event<Op>>)
    requires evs != [] && ClosedGrows(evs)
    requires Last(evs).op.Answer?
    requires
      var id := Last(evs).op.id;
      id in Run(Front(evs)) && Run(Front(evs))[id].stored.Some?
    ensures Final(evs) == Stored || Final(evs) == Unknown
    ensures Final(evs) == Unknown <==> Last(evs).op.id !in Gc(Run(Front(evs)), Last(evs).at)
  {
    ParkedMeansGone(Front(evs), Last(evs).op.id);
  }

  // ---------------------------------------------------------------- answers, from the history

  /** A query since it was last forwarded, read off the history: whether it is pending, and the reply parked for it. */
  datatype Trail = Trail(live: bool, parked: Option<string>)

  /**
   * A forward makes it pending; it stops being pending when it is 300 seconds old, when it is
   * asked again with a reply parked, and when a reply finds its latest asker there.
   */
  function TrailOf(evs: seq<Event<Op>>, id: string): Trail
    decreases |evs|, 1
  {
    if evs == [] then Trail(false, None)
    else
      var past, e := Front(evs), Last(evs);
      var trail := Trail(LiveAt(past, id, e.at), TrailOf(past, id).parked);
      if e.op.id != id then trail
      else if e.op.Query? then
        if trail.live then trail.(live := trail.parked.None?)
        else if Final(evs) == Forward then Trail(true, None)
        else trail
      else if !trail.live then trail
      else if Gone(LatestAsker(past, id), e.closed) then trail.(parked := Some(Serialized(e.op.reply)))
      else trail.(live := false)
  }

  /** Pending, and forwarded less than 300 seconds ago. */
  predicate LiveAt(evs: seq<Event<Op>>, id: string, now: Instant)
    decreases |evs|, 2
  {
    TrailOf(evs, id).live && now < ForwardedAt(evs, id) + 300_000_000_000
  }

  predicate Gone(asker: Option<Conn>, closed: set<Conn>) {
    asker.Some? && asker.value in closed
  }

  /** What a sweep leaves is what is pending, with its parked reply. */
  predicate Pending(t: Table, id: string, live: bool, parked: Option<string>) {
    (id in t <==> live) && (id in t ==> t[id].stored == parked)
  }

  lemma SweptPending(evs: seq<Event<Op>>, id: string, now: Instant)
    requires Pending(Run(evs), id, TrailOf(evs, id).live, TrailOf(evs, id).parked)
    ensures Pending(Gc(Run(evs), now), id, LiveAt(evs, id, now), TrailOf(evs, id).parked)
  {
    AgeCountsFromForward(evs, id);
    AsSecsIsDeadline(ForwardedAt(evs, id), now, 300);
  }

  /** A query is pending if and only if its history says so, and the reply parked for it is the one it says. */
  lemma {:induction false} TrailAgrees(evs: seq<Event<Op>>, id: string)
    ensures id in Run(evs) <==> TrailOf(evs, id).live
    ensures id in Run(evs) ==> Run(evs)[id].stored == TrailOf(evs, id).parked
  {
    if evs != [] {
      TrailAgrees(Front(evs), id);
      SweptPending(Front(evs), id, Last(evs).at);
      OwnerIsLatestAsker(Front(evs), id);
    }
  }

  /** The ids that were ever asked. */
  function Named(evs: seq<Event<Op>>): set<string> {
    if evs == [] then {} else Named(Front(evs)) + {Last(evs).op.id}
  }

  /** The queries pending at an instant, by their histories. */
  ghost function LiveIds(evs: seq<Event<Op>>, now: Instant): set<string> {
    set id | id in Named(evs) && LiveAt(evs, id, now)
  }

  lemma {:induction false} RunIsNamed(evs: seq<Event<Op>>, id: string)
    requires id in Run(evs)
    ensures id in Named(evs)
  {
    if id in Run(Front(evs)) {
      RunIsNamed(Front(evs), id);
    }
  }

  lemma SweptIsLive(evs: seq<Event<Op>>, now: Instant)
    ensures Gc(Run(evs), now).Keys == LiveIds(evs, now)
  {
    forall id ensures id in Gc(Run(evs), now) <==> id in LiveIds(evs, now) {
      TrailAgrees(evs, id);
      SweptPending(evs, id, now);
      if id in Run(evs) {
        RunIsNamed(evs, id);
      }
    }
  }

  /**
   * Exactly when a query is answered from a parked reply, re-owned, refused or forwarded: by
   * whether it is pending, whether a reply is parked for it, and how many queries are pending.
   */
  lemma QueryAnswers(evs: seq<Event<Op>>)
    requires evs != [] && Last(evs).op.Query?
    ensures
      var past, id, answer := Front(evs), Last(evs).op.id, Final(evs);
      var live, parked := LiveAt(past, id, Last(evs).at), TrailOf(past, id).parked;
      var pending := LiveIds(past, Last(evs).at);
      && (forall text :: answer == Replay(text) <==> live && parked == Some(text))
      && (answer == Reowned <==> live && parked.None?)
      && (answer == Capacity <==> !live && |pending| >= 8)
      && (answer == Forward <==> !live && |pending| < 8)
  {
    var past, id := Front(evs), Last(evs).op.id;
    TrailAgrees(past, id);
    SweptPending(past, id, Last(evs).at);
    SweptIsLive(past, Last(evs).at);
  }

  /** Exactly when a reply is unknown, delivered or parked: by whether its query is pending and its latest asker there. */
  lemma ReplyAnswers(evs: seq<Event<Op>>)
    requires evs != [] && Last(evs).op.Answer?
    ensures
      var past, id, answer := Front(evs), Last(evs).op.id, Final(evs);
      var live, asker := LiveAt(past, id, Last(evs).at), LatestAsker(past, id);
      && (answer == Unknown <==> !live)
      && (forall c: Conn :: answer == Delivered(c) <==> live && asker == Some(c) && c !in Last(evs).closed)
      && (answer == Stored <==> live && asker.Some? && asker.value in Last(evs).closed)
  {
    var past, id := Front(evs), Last(evs).op.id;
    TrailAgrees(past, id);
    SweptPending(past, id, Last(evs).at);
    OwnerIsLatestAsker(past, id);
  }

  lemma {:induction false} Bounded(evs: seq<Event<Op>>)
    ensures |Run(evs)| <= 8
  {
    if evs != [] {
      Bounded(Front(evs));
      var t, e := Run(Front(evs)), Last(evs);
      SweepIsSubmap(t, SUPERVISOR_GC_SECS, Created, e.at);
      ActKeepsBound(Gc(t, e.at), e.op, e.closed, e.stamp);
    }
  }

  lemma ActKeepsBound(t: Table, op: Op, closed: set<Conn>, stamp: Instant)
    requires |t| <= MAX_PENDING_SUPERVISOR
    ensures |Act(t, op, closed, stamp).0| <= MAX_PENDING_SUPERVISOR
  {
    var next := Act(t, op, closed, stamp).0;
    if next.Keys <= t.Keys {
      SubmapIsSmaller(next, t);
    }
  }

  // ---------------------------------------------------------------- lazy against eager expiry

  function ActOn(t: Table, e: Event<Op>): (Table, Outcome) {
    Act(t, e.op, e.closed, e.stamp)
  }

  /** What the table that expires on time goes by. */
  const OnTime := Rules(SUPERVISOR_GC_SECS, Created, ActOn)

  /** Acting on the lazy table and filtering is acting on the filtered table. */
  lemma ActCommutesWithGc(t: Table, e: Event<Op>)
    requires e.at <= e.stamp
    ensures Gc(Step(t, e).0, e.at) == Act(Gc(t, e.at), e.op, e.closed, e.stamp).0
  {
  }

  lemma {:induction false} LazySimulatesEager(evs: seq<Event<Op>>)
    requires Timed(evs)
    ensures Simulates(OnTime, Run(evs), evs)
  {
    if evs != [] {
      LazySimulatesEager(Front(evs));
      ActCommutesWithGc(Run(Front(evs)), Last(evs));
      SimulationStep(OnTime, Run(Front(evs)), Run(evs), evs);
    }
  }

  /** On every timed run, every decision is the decision of the table that expires on time. */
  lemma LazyRefinesEager(evs: seq<Event<Op>>)
    requires evs != [] && Timed(evs)
    ensures Final(evs) == ReferenceFinal(OnTime, evs)
  {
    LazySimulatesEager(Front(evs));
    ActCommutesWithGc(Run(Front(evs)), Last(evs));
    SimulationStep(OnTime, Run(Front(evs)), Run(evs), evs);
  }
}
