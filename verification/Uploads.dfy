/**
 * Governed client-to-desktop uploads of one account (src/broker.rs).
 *
 * A run is any sequence of broker operations; each carries the clock reading used by the
 * sweep and the (later) reading used to stamp the entry.  Facts "per upload" are stated
 * about the history since the latest accepted begin of an id, because ids are reused.
 */
module Uploads {
  import opened Common
  import opened Expiry

  const MAX_UPLOAD_SIZE: nat := 25 * 1024 * 1024
  const MAX_ACTIVE_UPLOADS: nat := 8

  datatype Entry = Entry(
    owner: Conn,
    declared: nat,
    forwarded: nat,
    lastActivity: Instant,
    finished: bool,
    buffer: Option<Bytes>)

  type Table = map<string, Entry>

  datatype Op =
    | Begin(id: string, size: nat, conn: Conn)
    | Mark(id: string, conn: Conn)
    | Take(id: string, conn: Conn)
    | Chunk(id: string, conn: Conn, payload: Bytes)
    | Finish(id: string, conn: Conn)
    | Resolve(id: string)
    | DropOwner(conn: Conn)

  datatype ChunkDecision = Forward | Drop | Overrun

  datatype Outcome =
    | Begun(result: Result<(), string>)
    | Taken(buffer: Option<Bytes>)
    | Decided(decision: ChunkDecision)
    | Resolved(owner: Option<Conn>)
    | Done

  function LastActivity(e: Entry): Instant {
    e.lastActivity
  }

  function Budget(e: Entry): nat {
    Min(e.declared, MAX_UPLOAD_SIZE)
  }

  /** `gc_uploads` */
  function Gc(t: Table, now: Instant): Table {
    Sweep(t, UPLOAD_IDLE_TIMEOUT_SECS, LastActivity, now)
  }

  /** Every operation but these three sweeps before it acts. */
  predicate Sweeps(op: Op) {
    !op.Mark? && !op.Take? && !op.DropOwner?
  }

  predicate OwnedBy(t: Table, id: string, conn: Conn) {
    id in t && t[id].owner == conn
  }

  /** What an operation does to the table once any sweep is over. */
  function Act(t: Table, op: Op, stamp: Instant): (Table, Outcome) {
    match op
    case Begin(id, size, conn) =>
      if size > MAX_UPLOAD_SIZE then (t, Begun(Err("file_too_large")))
      else if |t| >= MAX_ACTIVE_UPLOADS then (t, Begun(Err("too_many_uploads")))
      else if id in t then (t, Begun(Err("duplicate_upload_id")))
      else (t[id := Entry(conn, size, 0, stamp, false, None)], Begun(Ok(())))
    case Mark(id, conn) =>
      if OwnedBy(t, id, conn) then (t[id := t[id].(buffer := Some([]))], Done) else (t, Done)
    case Take(id, conn) =>
      if OwnedBy(t, id, conn) then (t[id := t[id].(buffer := None)], Taken(t[id].buffer)) else (t, Taken(None))
    case Chunk(id, conn, payload) =>
      if !OwnedBy(t, id, conn) || t[id].finished then (t, Decided(Drop))
      else if t[id].forwarded + |payload| > Budget(t[id]) then (t - {id}, Decided(Overrun))
      else (t[id := Extended(t[id], payload, stamp)], Decided(Forward))
    case Finish(id, conn) =>
      if OwnedBy(t, id, conn) then (t[id := t[id].(finished := true, lastActivity := stamp)], Done) else (t, Done)
    case Resolve(id) =>
      if id in t then (t - {id}, Resolved(Some(t[id].owner))) else (t, Resolved(None))
    case DropOwner(conn) =>
      (map id | id in t && t[id].owner != conn :: t[id], Done)
  }

  /** An entry after one more accepted chunk. */
  function Extended(e: Entry, payload: Bytes, stamp: Instant): Entry {
    e.(forwarded := e.forwarded + |payload|,
       lastActivity := stamp,
       buffer := if e.buffer.Some? then Some(e.buffer.value + payload) else None)
  }

  /** The table an operation finds: swept first, for every operation that sweeps. */
  function Found(t: Table, op: Op, at: Instant): Table {
    if Sweeps(op) then Gc(t, at) else t
  }

  function Step(t: Table, e: Event<Op>): (Table, Outcome) {
    Act(Found(t, e.op, e.at), e.op, e.stamp)
  }

  function Run(evs: seq<Event<Op>>): Table {
    if evs == [] then map[] else Step(Run(Front(evs)), Last(evs)).0
  }

  /** The outcome of the final event of a run. */
  function Final(evs: seq<Event<Op>>): Outcome
    requires evs != []
  {
    Step(Run(Front(evs)), Last(evs)).1
  }

  // ---------------------------------------------------------------- life cycle

  /**
   * What happened to an id since its latest accepted begin, read off the history alone: whether
   * it is still live, who began it and with what size, the payload bytes of its accepted chunks,
   * whether it was finished, the instant of its begin, latest accepted chunk or latest finish,
   * and the chunks accepted since it was marked and not taken.
   */
  datatype Life = Life(
    live: bool,
    conn: Conn,
    declared: nat,
    bytes: nat,
    finished: bool,
    touched: Instant,
    buffer: Option<Bytes>)

  const Unborn := Life(false, 0, 0, 0, false, 0, None)

  /** Live, and active in the last 60 seconds. */
  predicate LiveAt(life: Life, now: Instant) {
    life.live && now < life.touched + 60_000_000_000
  }

  /** What a sweep leaves of it. */
  function Aged(life: Life, e: Event<Op>): Life {
    if e.op.Mark? || e.op.Take? || e.op.DropOwner? then life else life.(live := LiveAt(life, e.at))
  }

  /** How one more operation, with its outcome, changes the history of an id once any sweep is over. */
  function Lived(life: Life, id: string, e: Event<Op>, outcome: Outcome): Life {
    match e.op
    case DropOwner(conn) => if conn == life.conn then life.(live := false) else life
    case Begin(i, size, conn) =>
      if i == id && outcome == Begun(Ok(())) then Life(true, conn, size, 0, false, e.stamp, None) else life
    case Resolve(i) => if i == id then life.(live := false) else life
    case Chunk(i, conn, payload) =>
      if i != id || outcome == Decided(Drop) then life
      else if outcome == Decided(Overrun) then life.(live := false)
      else life.(bytes := life.bytes + |payload|, touched := e.stamp,
                 buffer := if life.buffer.Some? then Some(life.buffer.value + payload) else None)
    case Finish(i, conn) =>
      if i == id && life.live && conn == life.conn then life.(finished := true, touched := e.stamp) else life
    case Mark(i, conn) => if i == id && conn == life.conn then life.(buffer := Some([])) else life
    case Take(i, conn) => if i == id && conn == life.conn then life.(buffer := None) else life
  }

  function LifeOf(evs: seq<Event<Op>>, id: string): Life {
    if evs == [] then Unborn else Lived(Aged(LifeOf(Front(evs), id), Last(evs)), id, Last(evs), Final(evs))
  }

  /** The table entry is a faithful summary of the history it stands for. */
  predicate Summarises(e: Entry, life: Life) {
    && e.owner == life.conn
    && e.declared == life.declared <= MAX_UPLOAD_SIZE
    && e.finished == life.finished
    && e.lastActivity == life.touched
    && e.forwarded == life.bytes <= Budget(e)
    && e.buffer == life.buffer
  }

  predicate WithinBudget(life: Life) {
    life.bytes <= Min(life.declared, MAX_UPLOAD_SIZE)
  }

  /** The table has an entry for an id exactly if it is live, and then a faithful one. */
  predicate Agrees(t: Table, id: string, life: Life) {
    (id in t <==> life.live) && (id in t ==> Summarises(t[id], life))
  }

  lemma SweptAgrees(t: Table, past: Life, id: string, e: Event<Op>)
    requires Agrees(t, id, past)
    ensures Agrees(Found(t, e.op, e.at), id, Aged(past, e))
  {
    AsSecsIsDeadline(past.touched, e.at, 60);
  }

  ghost predicate Follows(t: Table, life: Life, id: string, e: Event<Op>) {
    var (next, outcome) := Act(t, e.op, e.stamp);
    Agrees(next, id, Lived(life, id, e, outcome)) && WithinBudget(Lived(life, id, e, outcome))
  }

  lemma ChunkFollows(t: Table, life: Life, id: string, e: Event<Op>)
    requires Agrees(t, id, life) && WithinBudget(life) && e.op.Chunk?
    ensures Follows(t, life, id, e)
  {
  }

  lemma EdgeFollows(t: Table, life: Life, id: string, e: Event<Op>)
    requires Agrees(t, id, life) && WithinBudget(life) && (e.op.Begin? || e.op.Resolve? || e.op.DropOwner?)
    ensures Follows(t, life, id, e)
  {
  }

  lemma FlagFollows(t: Table, life: Life, id: string, e: Event<Op>)
    requires Agrees(t, id, life) && WithinBudget(life) && (e.op.Mark? || e.op.Take? || e.op.Finish?)
    ensures Follows(t, life, id, e)
  {
  }

  lemma LivedAgrees(t: Table, life: Life, id: string, e: Event<Op>)
    requires Agrees(t, id, life) && WithinBudget(life)
    ensures Follows(t, life, id, e)
  {
    if e.op.Chunk? {
      ChunkFollows(t, life, id, e);
    } else if e.op.Mark? || e.op.Take? || e.op.Finish? {
      FlagFollows(t, life, id, e);
    } else {
      EdgeFollows(t, life, id, e);
    }
  }

  /**
   * On every run the table has an entry for an id if and only if its history says it is live,
   * the entry is what that history says, and the bytes accepted since the latest accepted begin
   * never exceed min(declared, 25 MiB), live or not.
   */
  lemma {:induction false} LifeCycle(evs: seq<Event<Op>>, id: string)
    ensures id in Run(evs) <==> LifeOf(evs, id).live
    ensures id in Run(evs) ==> Summarises(Run(evs)[id], LifeOf(evs, id))
    ensures LifeOf(evs, id).bytes <= Min(LifeOf(evs, id).declared, 26_214_400)
  {
    if evs != [] {
      LifeCycle(Front(evs), id);
      var t, e := Run(Front(evs)), Last(evs);
      var past := LifeOf(Front(evs), id);
      SweptAgrees(t, past, id, e);
      LivedAgrees(Found(t, e.op, e.at), Aged(past, e), id, e);
    }
  }

  /** Only begins and accepted chunks change the bytes of a life. */
  lemma BytesOfLife(evs: seq<Event<Op>>, id: string)
    requires evs != []
    ensures
      var op, past := Last(evs).op, LifeOf(Front(evs), id).bytes;
      LifeOf(evs, id).bytes ==
        if op.Begin? && op.id == id && Final(evs) == Begun(Ok(())) then 0
        else if op.Chunk? && op.id == id && Final(evs) == Decided(Forward) then past + |op.payload|
        else past
  {
  }

  // ---------------------------------------------------------------- answers, from the history

  /** The ids that were ever begun. */
  function Named(evs: seq<Event<Op>>): set<string> {
    if evs == [] then {} else Named(Front(evs)) + (if Last(evs).op.Begin? then {Last(evs).op.id} else {})
  }

  /** The ids that are live at an instant, by their histories. */
  ghost function LiveIds(evs: seq<Event<Op>>, now: Instant): set<string> {
    set id | id in Named(evs) && LiveAt(LifeOf(evs, id), now)
  }

  lemma StepNames(t: Table, e: Event<Op>, id: string)
    requires id in Step(t, e).0
    ensures id in t || (e.op.Begin? && id == e.op.id)
  {
  }

  lemma {:induction false} RunIsNamed(evs: seq<Event<Op>>, id: string)
    requires id in Run(evs)
    ensures id in Named(evs)
  {
    StepNames(Run(Front(evs)), Last(evs), id);
    if id in Run(Front(evs)) {
      RunIsNamed(Front(evs), id);
    }
  }

  /** What a sweep leaves of a table is what the histories say is live. */
  lemma SweptIsLive(evs: seq<Event<Op>>, now: Instant)
    ensures Gc(Run(evs), now).Keys == LiveIds(evs, now)
    ensures forall id :: id in Gc(Run(evs), now) <==> LiveAt(LifeOf(evs, id), now)
  {
    forall id
      ensures id in Gc(Run(evs), now) <==> LiveAt(LifeOf(evs, id), now)
      ensures id in Gc(Run(evs), now) <==> id in LiveIds(evs, now)
    {
      LifeCycle(evs, id);
      AsSecsIsDeadline(LifeOf(evs, id).touched, now, 60);
      if id in Run(evs) {
        RunIsNamed(evs, id);
      }
    }
  }

  /** A begin is accepted, or refused and why: exactly by its size, the live uploads and its id. */
  lemma BeginAnswers(evs: seq<Event<Op>>)
    requires evs != [] && Last(evs).op.Begin?
    ensures
      var op, answer := Last(evs).op, Final(evs);
      var live := LiveIds(Front(evs), Last(evs).at);
      && (answer == Begun(Err("file_too_large")) <==> op.size > 26_214_400)
      && (answer == Begun(Err("too_many_uploads")) <==> op.size <= 26_214_400 && |live| >= 8)
      && (answer == Begun(Err("duplicate_upload_id")) <==> op.size <= 26_214_400 && |live| < 8 && op.id in live)
      && (answer == Begun(Ok(())) <==> op.size <= 26_214_400 && |live| < 8 && op.id !in live)
  {
    SweptIsLive(Front(evs), Last(evs).at);
  }

  /** A chunk is dropped, overruns or is forwarded: exactly by the history of its id. */
  lemma ChunkAnswers(evs: seq<Event<Op>>)
    requires evs != [] && Last(evs).op.Chunk?
    ensures
      var op, answer := Last(evs).op, Final(evs);
      var life := LifeOf(Front(evs), op.id);
      var open := LiveAt(life, Last(evs).at) && op.conn == life.conn && !life.finished;
      var fits := life.bytes + |op.payload| <= Min(life.declared, 26_214_400);
      && (answer == Decided(Drop) <==> !open)
      && (answer == Decided(Overrun) <==> open && !fits)
      && (answer == Decided(Forward) <==> open && fits)
  {
    LifeCycle(Front(evs), Last(evs).op.id);
    SweptIsLive(Front(evs), Last(evs).at);
  }

  /** A result is routed to a connection if and only if the upload is live and that one began it. */
  lemma ResolveAnswers(evs: seq<Event<Op>>)
    requires evs != [] && Last(evs).op.Resolve?
    ensures
      var life := LifeOf(Front(evs), Last(evs).op.id);
      && (forall c :: Final(evs) == Resolved(Some(c)) <==> LiveAt(life, Last(evs).at) && c == life.conn)
      && (Final(evs) == Resolved(None) <==> !LiveAt(life, Last(evs).at))
  {
    LifeCycle(Front(evs), Last(evs).op.id);
    SweptIsLive(Front(evs), Last(evs).at);
  }

  /** A taken buffer is what was accepted since the mark, for the connection that began the upload. */
  lemma TakeAnswers(evs: seq<Event<Op>>)
    requires evs != [] && Last(evs).op.Take?
    ensures
      var op := Last(evs).op;
      var life := LifeOf(Front(evs), op.id);
      forall b :: Final(evs) == Taken(Some(b)) <==> life.live && op.conn == life.conn && life.buffer == Some(b)
    ensures Final(evs).Taken?
  {
    LifeCycle(Front(evs), Last(evs).op.id);
  }

  /** The ways in which the begins of one id have ended so far. */
  datatype Tally = Tally(begun: nat, overrun: nat, resolved: nat, swept: nat, dropped: nat)

  /** The sweep ends an upload if the table it leaves no longer has it. */
  function SweptOut(tally: Tally, id: string, before: Table, found: Table): Tally {
    if id in before && id !in found then tally.(swept := tally.swept + 1) else tally
  }

  predicate Begins(id: string, op: Op, outcome: Outcome) {
    op.Begin? && op.id == id && outcome == Begun(Ok(()))
  }

  predicate Overruns(id: string, op: Op, outcome: Outcome) {
    op.Chunk? && op.id == id && outcome == Decided(Overrun)
  }

  predicate Resolves(id: string, op: Op, outcome: Outcome) {
    op.Resolve? && op.id == id && outcome != Resolved(None)
  }

  predicate Drops(id: string, found: Table, op: Op) {
    op.DropOwner? && OwnedBy(found, id, op.conn)
  }

  /** How one more operation, with its outcome, changes the tally of an id. */
  function Tallied(tally: Tally, id: string, found: Table, op: Op, outcome: Outcome): Tally {
    if Begins(id, op, outcome) then tally.(begun := tally.begun + 1)
    else if Overruns(id, op, outcome) then tally.(overrun := tally.overrun + 1)
    else if Resolves(id, op, outcome) then tally.(resolved := tally.resolved + 1)
    else if Drops(id, found, op) then tally.(dropped := tally.dropped + 1)
    else tally
  }

  function TallyOf(evs: seq<Event<Op>>, id: string): Tally {
    if evs == [] then Tally(0, 0, 0, 0, 0)
    else
      var t, e := Run(Front(evs)), Last(evs);
      var found := Found(t, e.op, e.at);
      Tallied(SweptOut(TallyOf(Front(evs), id), id, t, found), id, found, e.op, Final(evs))
  }

  predicate Balanced(tally: Tally, live: bool) {
    tally.begun == tally.overrun + tally.resolved + tally.swept + tally.dropped + (if live then 1 else 0)
  }

  /** These are the only ways for an entry to come and go. */
  lemma ComesAndGoes(id: string, t: Table, op: Op, stamp: Instant)
    ensures
      var (next, outcome) := Act(t, op, stamp);
      var gone := Overruns(id, op, outcome) || Resolves(id, op, outcome) || Drops(id, t, op);
      && (Begins(id, op, outcome) ==> id !in t && id in next)
      && (gone ==> id in t && id !in next)
      && (!Begins(id, op, outcome) && !gone ==> (id in next <==> id in t))
  {
  }

  lemma ActBalances(tally: Tally, id: string, t: Table, op: Op, stamp: Instant)
    requires Balanced(tally, id in t)
    ensures Balanced(Tallied(tally, id, t, op, Act(t, op, stamp).1), id in Act(t, op, stamp).0)
  {
    ComesAndGoes(id, t, op, stamp);
  }

  /** Every accepted begin ends exactly one way or is still active. */
  lemma {:induction false} Conservation(evs: seq<Event<Op>>, id: string)
    ensures Balanced(TallyOf(evs, id), id in Run(evs))
  {
    if evs != [] {
      Conservation(Front(evs), id);
      var t, e := Run(Front(evs)), Last(evs);
      var found := Found(t, e.op, e.at);
      ActBalances(SweptOut(TallyOf(Front(evs), id), id, t, found), id, found, e.op, e.stamp);
    }
  }

  lemma {:induction false} Bounded(evs: seq<Event<Op>>)
    ensures |Run(evs)| <= 8
  {
    if evs != [] {
      Bounded(Front(evs));
      var t, e := Run(Front(evs)), Last(evs);
      SweepIsSubmap(t, UPLOAD_IDLE_TIMEOUT_SECS, LastActivity, e.at);
      ActKeepsBound(Found(t, e.op, e.at), e.op, e.stamp);
    }
  }

  lemma ActKeepsBound(t: Table, op: Op, stamp: Instant)
    requires |t| <= MAX_ACTIVE_UPLOADS
    ensures |Act(t, op, stamp).0| <= MAX_ACTIVE_UPLOADS
  {
    var next := Act(t, op, stamp).0;
    if next.Keys <= t.Keys {
      SubmapIsSmaller(next, t);
    }
  }

  // ---------------------------------------------------------------- lazy against eager expiry

  function ActOn(t: Table, e: Event<Op>): (Table, Outcome) {
    Act(t, e.op, e.stamp)
  }

  /** What the table that expires on time goes by. */
  const OnTime := Rules(UPLOAD_IDLE_TIMEOUT_SECS, LastActivity, ActOn)

  /** The one call that tells the two apart: taking a buffer whose upload is already stale. */
  predicate TakesStale(t: Table, e: Event<Op>) {
    && e.op.Take?
    && OwnedBy(t, e.op.id, e.op.conn)
    && t[e.op.id].buffer.Some?
    && AsSecs(t[e.op.id].lastActivity, e.at) >= UPLOAD_IDLE_TIMEOUT_SECS
  }

  /** Whatever survives an operation was alive before it or has just been stamped. */
  lemma ActKeepsAlive(t: Table, op: Op, at: Instant, stamp: Instant)
    requires at <= stamp
    requires AllAlive(t, UPLOAD_IDLE_TIMEOUT_SECS, LastActivity, at)
    ensures AllAlive(Act(t, op, stamp).0, UPLOAD_IDLE_TIMEOUT_SECS, LastActivity, at)
  {
  }

  /** The operations that do not sweep neither revive nor kill an entry. */
  lemma UnsweptCommutes(t: Table, op: Op, at: Instant, stamp: Instant)
    requires !Sweeps(op)
    ensures Gc(Act(t, op, stamp).0, at) == Act(Gc(t, at), op, stamp).0
  {
    match op
    case Mark(_, _) =>
    case Take(_, _) =>
    case DropOwner(_) =>
  }

  /** Acting on the lazy table and filtering is acting on the filtered table. */
  lemma ActCommutesWithGc(t: Table, e: Event<Op>)
    requires e.at <= e.stamp
    ensures Gc(Step(t, e).0, e.at) == Act(Gc(t, e.at), e.op, e.stamp).0
  {
    if Sweeps(e.op) {
      ActKeepsAlive(Gc(t, e.at), e.op, e.at, e.stamp);
    } else {
      UnsweptCommutes(t, e.op, e.at, e.stamp);
    }
  }

  /** The filtered table gives the same answer except when a stale buffer is taken. */
  lemma ActAgrees(t: Table, e: Event<Op>)
    ensures Step(t, e).1 == Act(Gc(t, e.at), e.op, e.stamp).1 <==> !TakesStale(t, e)
  {
  }

  lemma {:induction false} LazySimulatesEager(evs: seq<Event<Op>>)
    requires Timed(evs)
    ensures Simulates(OnTime, Run(evs), evs)
  {
    if evs != [] {
      LazySimulatesEager(Front(evs));
      ActCommutesWithGc(Run(Front(evs)), Last(evs));
      SimulationStep(OnTime, Run(Front(evs)), Run(evs), evs);
    }
  }

  /**
   * On every timed run, the final decision is the reference decision if and only if it does
   * not take a stale buffer: `take_bug_report_buffer` is the one reader that does not sweep.
   */
  lemma LazyAgreesWithEager(evs: seq<Event<Op>>)
    requires evs != [] && Timed(evs)
    ensures Final(evs) == ReferenceFinal(OnTime, evs) <==> !TakesStale(Run(Front(evs)), Last(evs))
  {
    LazySimulatesEager(Front(evs));
    ActCommutesWithGc(Run(Front(evs)), Last(evs));
    SimulationStep(OnTime, Run(Front(evs)), Run(evs), evs);
    ActAgrees(Run(Front(evs)), Last(evs));
  }

  const BeginOne: Event<Op> := Event(0, 0, {}, Begin("u", 1, 7))
  const MarkOne: Event<Op> := Event(0, 0, {}, Mark("u", 7))
  const TakeLate: Event<Op> := Event(60 * NANOS, 60 * NANOS, {}, Take("u", 7))

  lemma MarkedRun()
    ensures Run([BeginOne, MarkOne]) == map["u" := Entry(7, 1, 0, 0, false, Some([]))]
  {
    assert Front([BeginOne, MarkOne]) == [BeginOne] && Front([BeginOne]) == [];
    assert Run([]) == map[];
    assert Run([BeginOne]) == map["u" := Entry(7, 1, 0, 0, false, None)];
  }

  /** A run on which they differ: begin, mark, and take sixty seconds later. */
  lemma StaleTakeExists()
    ensures
      var evs := [BeginOne, MarkOne, TakeLate];
      Timed(evs) && Final(evs) == Taken(Some([])) && Final(evs) != ReferenceFinal(OnTime, evs)
  {
    var evs := [BeginOne, MarkOne, TakeLate];
    assert Front(evs) == [BeginOne, MarkOne];
    MarkedRun();
    LazyAgreesWithEager(evs);
  }
}
