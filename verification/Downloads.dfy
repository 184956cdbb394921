/** Governed desktop-to-client downloads of one account (src/broker.rs). */
module Downloads {
  import opened Common
  import opened Expiry

  const MAX_DOWNLOAD_SIZE: nat := 25 * 1024 * 1024
  const MAX_ACTIVE_DOWNLOADS: nat := 4

  datatype Entry = Entry(owner: Conn, declared: Option<nat>, forwarded: nat, lastActivity: Instant)

  type Table = map<string, Entry>

  datatype Op =
    | Register(id: string, conn: Conn)
    | NoteBegin(id: string, size: nat)
    | Chunk(id: string, payload: Bytes)
    | Resolve(id: string)
    | DropOwner(conn: Conn)

  datatype ChunkDecision = Forward(owner: Conn) | Drop | Overrun(owner: Conn)

  datatype Outcome =
    | Registered(result: Result<(), string>)
    | Noted(owner: Option<Conn>)
    | Decided(decision: ChunkDecision)
    | Resolved(owner: Option<Conn>)
    | Done

  function LastActivity(e: Entry): Instant {
    e.lastActivity
  }

  function Limit(declared: Option<nat>): nat {
    if declared.Some? then Min(declared.value, MAX_DOWNLOAD_SIZE) else MAX_DOWNLOAD_SIZE
  }

  /** `gc_downloads` */
  function Gc(t: Table, now: Instant): Table {
    Sweep(t, UPLOAD_IDLE_TIMEOUT_SECS, LastActivity, now)
  }

  /** What an operation does to the table once any sweep is over. */
  function Act(t: Table, op: Op, stamp: Instant): (Table, Outcome) {
    match op
    case Register(id, conn) =>
      if |t| >= MAX_ACTIVE_DOWNLOADS then (t, Registered(Err("too many active downloads")))
      else (t[id := Entry(conn, None, 0, stamp)], Registered(Ok(())))
    case NoteBegin(id, size) =>
      if id !in t then (t, Noted(None))
      else (t[id := t[id].(declared := Some(size), lastActivity := stamp)], Noted(Some(t[id].owner)))
    case Chunk(id, payload) =>
      if id !in t then (t, Decided(Drop))
      else
        var total := t[id].forwarded + |payload|;
        if total > Limit(t[id].declared) then (t - {id}, Decided(Overrun(t[id].owner)))
        else (t[id := t[id].(forwarded := total, lastActivity := stamp)], Decided(Forward(t[id].owner)))
    case Resolve(id) =>
      if id in t then (t - {id}, Resolved(Some(t[id].owner))) else (t, Resolved(None))
    case DropOwner(conn) =>
      (map id | id in t && t[id].owner != conn :: t[id], Done)
  }

  /** The table an operation finds; dropping those of a closing connection is the only one that does not sweep. */
  function Found(t: Table, op: Op, at: Instant): Table {
    if op.DropOwner? then t else Gc(t, at)
  }

  function Step(t: Table, e: Event<Op>): (Table, Outcome) {
    Act(Found(t, e.op, e.at), e.op, e.stamp)
  }

  function Run(evs: seq<Event<Op>>): Table {
    if evs == [] then map[] else Step(Run(Front(evs)), Last(evs)).0
  }

  /** The outcome of the final event of a run. */
  function Final(evs: seq<Event<Op>>): Outcome
    requires evs != []
  {
    Step(Run(Front(evs)), Last(evs)).1
  }

  // ---------------------------------------------------------------- byte budget

  /**
   * The stream of an id since its latest accepted registration, read off the history: whether it
   * is still live, who registered, the sizes announced by the desktop, the payload bytes of the chunks forwarded
   * and to whom, how many chunks were forwarded before any size was announced, how many bytes
   * had been forwarded when the latest size was announced, and when the latest of all these
   * happened.
   */
  datatype Stream = Stream(
    live: bool,
    conn: Conn,
    sizes: seq<nat>,
    bytes: nat,
    routes: set<Conn>,
    unannounced: nat,
    atAnnounce: nat,
    touched: Instant)

  const Unopened := Stream(false, 0, [], 0, {}, 0, 0, 0)

  /** Live, and active in the last 60 seconds. */
  predicate LiveAt(s: Stream, now: Instant) {
    s.live && now < s.touched + 60_000_000_000
  }

  /** What a sweep leaves of it. */
  function Aged(s: Stream, e: Event<Op>): Stream {
    if e.op.DropOwner? then s else s.(live := LiveAt(s, e.at))
  }

  /** How one more operation, with its outcome, changes the stream of an id once any sweep is over. */
  function Streamed(s: Stream, id: string, e: Event<Op>, outcome: Outcome): Stream {
    match e.op
    case Register(i, conn) =>
      if i == id && outcome == Registered(Ok(())) then Stream(true, conn, [], 0, {}, 0, 0, e.stamp) else s
    case NoteBegin(i, size) =>
      if i == id && s.live then s.(sizes := s.sizes + [size], atAnnounce := s.bytes, touched := e.stamp) else s
    case Chunk(i, payload) =>
      if i != id || outcome == Decided(Drop) then s
      else if outcome.Decided? && outcome.decision.Forward? then
        s.(bytes := s.bytes + |payload|,
           routes := s.routes + {outcome.decision.owner},
           unannounced := s.unannounced + (if s.sizes == [] then 1 else 0),
           touched := e.stamp)
      else s.(live := false)
    case Resolve(i) => if i == id then s.(live := false) else s
    case DropOwner(conn) => if conn == s.conn then s.(live := false) else s
  }

  function StreamOf(evs: seq<Event<Op>>, id: string): Stream {
    if evs == [] then Unopened else Streamed(Aged(StreamOf(Front(evs), id), Last(evs)), id, Last(evs), Final(evs))
  }

  /** The size announced last, if any: the one the next chunk is measured against. */
  function Announced(s: Stream): Option<nat> {
    if s.sizes == [] then None else Some(s.sizes[|s.sizes| - 1])
  }

  predicate Summarises(e: Entry, s: Stream) {
    && e.owner == s.conn
    && e.declared == Announced(s)
    && e.forwarded == s.bytes
    && e.lastActivity == s.touched
  }

  predicate StreamOk(s: Stream) {
    && s.routes <= {s.conn}
    && s.bytes <= MAX_DOWNLOAD_SIZE
    && (s.unannounced == 0 && s.sizes == [] ==> s.bytes == 0)
    && (s.unannounced == 0 && |s.sizes| == 1 ==> s.bytes <= s.sizes[0])
    && s.atAnnounce <= s.bytes
    && (s.sizes != [] ==> (s.bytes <= Last(s.sizes) <==> s.atAnnounce <= Last(s.sizes)))
  }

  /** The table has an entry for an id exactly if its stream is live, and then a faithful one. */
  predicate Agrees(t: Table, id: string, s: Stream) {
    (id in t <==> s.live) && (id in t ==> Summarises(t[id], s))
  }

  lemma SweptAgrees(t: Table, s: Stream, id: string, e: Event<Op>)
    requires Agrees(t, id, s)
    ensures Agrees(Found(t, e.op, e.at), id, Aged(s, e))
  {
    AsSecsIsDeadline(s.touched, e.at, 60);
  }

  lemma StreamedAgrees(t: Table, s: Stream, id: string, e: Event<Op>)
    requires Agrees(t, id, s) && StreamOk(s)
    ensures
      var (next, outcome) := Act(t, e.op, e.stamp);
      Agrees(next, id, Streamed(s, id, e, outcome)) && StreamOk(Streamed(s, id, e, outcome))
  {
  }

  /**
   * The table has an entry for an id if and only if its history says it is live, and the entry is
   * what that history says.  Per registration: every forwarded chunk goes to the registering connection, the bytes
   * forwarded never exceed 25 MiB whatever the order of chunks and repeated begins, and once a
   * size has been announced they stay within the latest one if and only if they were within it
   * when it was announced; so always when a single begin precedes every chunk.
   */
  lemma {:induction false} DownloadBudget(evs: seq<Event<Op>>, id: string)
    ensures id in Run(evs) <==> StreamOf(evs, id).live
    ensures id in Run(evs) ==> Summarises(Run(evs)[id], StreamOf(evs, id))
    ensures
      var s := StreamOf(evs, id);
      && s.routes <= {s.conn}
      && s.bytes <= 26_214_400
      && (s.sizes != [] ==> (s.bytes <= Last(s.sizes) <==> s.atAnnounce <= Last(s.sizes)))
      && (s.unannounced == 0 && |s.sizes| == 1 ==> s.bytes <= s.sizes[0])
    ensures StreamOk(StreamOf(evs, id))
  {
    if evs != [] {
      DownloadBudget(Front(evs), id);
      var t, e := Run(Front(evs)), Last(evs);
      var past := StreamOf(Front(evs), id);
      SweptAgrees(t, past, id, e);
      StreamedAgrees(Found(t, e.op, e.at), Aged(past, e), id, e);
    }
  }

  // ---------------------------------------------------------------- answers, from the history

  /** The ids that were ever registered. */
  function Named(evs: seq<Event<Op>>): set<string> {
    if evs == [] then {} else Named(Front(evs)) + (if Last(evs).op.Register? then {Last(evs).op.id} else {})
  }

  /** The ids that are live at an instant, by their histories. */
  ghost function LiveIds(evs: seq<Event<Op>>, now: Instant): set<string> {
    set id | id in Named(evs) && LiveAt(StreamOf(evs, id), now)
  }

  lemma StepNames(t: Table, e: Event<Op>, id: string)
    requires id in Step(t, e).0
    ensures id in t || (e.op.Register? && id == e.op.id)
  {
  }

  lemma {:induction false} RunIsNamed(evs: seq<Event<Op>>, id: string)
    requires id in Run(evs)
    ensures id in Named(evs)
  {
    StepNames(Run(Front(evs)), Last(evs), id);
    if id in Run(Front(evs)) {
      RunIsNamed(Front(evs), id);
    }
  }

  /** What a sweep leaves of a table is what the histories say is live. */
  lemma SweptIsLive(evs: seq<Event<Op>>, now: Instant)
    ensures Gc(Run(evs), now).Keys == LiveIds(evs, now)
    ensures forall id :: id in Gc(Run(evs), now) <==> LiveAt(StreamOf(evs, id), now)
  {
    forall id
      ensures id in Gc(Run(evs), now) <==> LiveAt(StreamOf(evs, id), now)
      ensures id in Gc(Run(evs), now) <==> id in LiveIds(evs, now)
    {
      DownloadBudget(evs, id);
      AsSecsIsDeadline(StreamOf(evs, id).touched, now, 60);
      if id in Run(evs) {
        RunIsNamed(evs, id);
      }
    }
  }

  /** A registration is accepted if and only if fewer than four downloads are live, its own included. */
  lemma RegisterAnswers(evs: seq<Event<Op>>)
    requires evs != [] && Last(evs).op.Register?
    ensures
      var live := LiveIds(Front(evs), Last(evs).at);
      && (Final(evs) == Registered(Ok(())) <==> |live| < 4)
      && (Final(evs) == Registered(Err("too many active downloads")) <==> |live| >= 4)
  {
    SweptIsLive(Front(evs), Last(evs).at);
  }

  /** A begin is passed on to a connection if and only if the download is live and that one registered it. */
  lemma NoteAnswers(evs: seq<Event<Op>>)
    requires evs != [] && Last(evs).op.NoteBegin?
    ensures
      var s := StreamOf(Front(evs), Last(evs).op.id);
      && (forall c :: Final(evs) == Noted(Some(c)) <==> LiveAt(s, Last(evs).at) && c == s.conn)
      && (Final(evs) == Noted(None) <==> !LiveAt(s, Last(evs).at))
  {
    DownloadBudget(Front(evs), Last(evs).op.id);
    SweptIsLive(Front(evs), Last(evs).at);
  }

  /**
   * A chunk is dropped, overruns or is forwarded exactly by the history of its id: it is measured
   * against the size announced last (or 25 MiB), and the connection told is the one that registered.
   */
  lemma ChunkAnswers(evs: seq<Event<Op>>)
    requires evs != [] && Last(evs).op.Chunk?
    ensures
      var op := Last(evs).op;
      var s := StreamOf(Front(evs), op.id);
      var live := LiveAt(s, Last(evs).at);
      var fits := s.bytes + |op.payload| <= if s.sizes == [] then 26_214_400 else Min(Last(s.sizes), 26_214_400);
      && (Final(evs) == Decided(Drop) <==> !live)
      && (forall c :: Final(evs) == Decided(Overrun(c)) <==> live && !fits && c == s.conn)
      && (forall c :: Final(evs) == Decided(Forward(c)) <==> live && fits && c == s.conn)
  {
    DownloadBudget(Front(evs), Last(evs).op.id);
    SweptIsLive(Front(evs), Last(evs).at);
  }

  /** An end is passed on to a connection if and only if the download is live and that one registered it. */
  lemma ResolveAnswers(evs: seq<Event<Op>>)
    requires evs != [] && Last(evs).op.Resolve?
    ensures
      var s := StreamOf(Front(evs), Last(evs).op.id);
      && (forall c :: Final(evs) == Resolved(Some(c)) <==> LiveAt(s, Last(evs).at) && c == s.conn)
      && (Final(evs) == Resolved(None) <==> !LiveAt(s, Last(evs).at))
  {
    DownloadBudget(Front(evs), Last(evs).op.id);
    SweptIsLive(Front(evs), Last(evs).at);
  }

  lemma RunStep(evs: seq<Event<Op>>, e: Event<Op>)
    ensures Run(evs + [e]) == Step(Run(evs), e).0
  {
    assert Front(evs + [e]) == evs;
  }

  function AtZero(op: Op): Event<Op> {
    Event(0, 0, {}, op)
  }

  lemma AliveAtZero(id: string, entry: Entry)
    requires entry.lastActivity == 0
    ensures Gc(map[id := entry], 0) == map[id := entry]
  {
  }

  lemma BegunAtZero(id: string, conn: Conn, size: nat)
    ensures Run([] + [AtZero(Register(id, conn))] + [AtZero(NoteBegin(id, size))]) == map[id := Entry(conn, Some(size), 0, 0)]
  {
    var e1, e2 := AtZero(Register(id, conn)), AtZero(NoteBegin(id, size));
    RunStep([], e1);
    assert Run([] + [e1]) == map[id := Entry(conn, None, 0, 0)];
    AliveAtZero(id, Entry(conn, None, 0, 0));
    RunStep([] + [e1], e2);
  }

  lemma SentInFull(id: string, conn: Conn, payload: Bytes)
    requires |payload| <= MAX_DOWNLOAD_SIZE
    ensures
      var evs := [] + [AtZero(Register(id, conn))] + [AtZero(NoteBegin(id, |payload|))] + [AtZero(Chunk(id, payload))];
      Run(evs) == map[id := Entry(conn, Some(|payload|), |payload|, 0)]
  {
    BegunAtZero(id, conn, |payload|);
    AliveAtZero(id, Entry(conn, Some(|payload|), 0, 0));
    RunStep([] + [AtZero(Register(id, conn))] + [AtZero(NoteBegin(id, |payload|))], AtZero(Chunk(id, payload)));
  }

  /** Runs on which the declared size is exceeded: a second begin announces less than was already sent. */
  lemma LoweredSizeIsExceeded(id: string, conn: Conn, payload: Bytes, size: nat)
    requires size < |payload| <= MAX_DOWNLOAD_SIZE
    ensures
      var evs := [] + [AtZero(Register(id, conn))] + [AtZero(NoteBegin(id, |payload|))] + [AtZero(Chunk(id, payload))]
               + [AtZero(NoteBegin(id, size))];
      Announced(StreamOf(evs, id)) == Some(size) && StreamOf(evs, id).bytes > size
  {
    var evs := [] + [AtZero(Register(id, conn))] + [AtZero(NoteBegin(id, |payload|))] + [AtZero(Chunk(id, payload))];
    SentInFull(id, conn, payload);
    AliveAtZero(id, Entry(conn, Some(|payload|), |payload|, 0));
    RunStep(evs, AtZero(NoteBegin(id, size)));
    DownloadBudget(evs + [AtZero(NoteBegin(id, size))], id);
  }

  lemma {:induction false} Bounded(evs: seq<Event<Op>>)
    ensures |Run(evs)| <= 4
  {
    if evs != [] {
      Bounded(Front(evs));
      var t, e := Run(Front(evs)), Last(evs);
      SweepIsSubmap(t, UPLOAD_IDLE_TIMEOUT_SECS, LastActivity, e.at);
      ActKeepsBound(Found(t, e.op, e.at), e.op, e.stamp);
    }
  }

  lemma ActKeepsBound(t: Table, op: Op, stamp: Instant)
    requires |t| <= MAX_ACTIVE_DOWNLOADS
    ensures |Act(t, op, stamp).0| <= MAX_ACTIVE_DOWNLOADS
  {
    var next := Act(t, op, stamp).0;
    if next.Keys <= t.Keys {
      SubmapIsSmaller(next, t);
    }
  }

  // ---------------------------------------------------------------- lazy against eager expiry

  function ActOn(t: Table, e: Event<Op>): (Table, Outcome) {
    Act(t, e.op, e.stamp)
  }

  /** What the table that expires on time goes by. */
  const OnTime := Rules(UPLOAD_IDLE_TIMEOUT_SECS, LastActivity, ActOn)

  /** Acting on the lazy table and filtering is acting on the filtered table. */
  lemma ActCommutesWithGc(t: Table, e: Event<Op>)
    requires e.at <= e.stamp
    ensures Gc(Step(t, e).0, e.at) == Act(Gc(t, e.at), e.op, e.stamp).0
  {
  }

  lemma {:induction false} LazySimulatesEager(evs: seq<Event<Op>>)
    requires Timed(evs)
    ensures Simulates(OnTime, Run(evs), evs)
  {
    if evs != [] {
      LazySimulatesEager(Front(evs));
      ActCommutesWithGc(Run(Front(evs)), Last(evs));
      SimulationStep(OnTime, Run(Front(evs)), Run(evs), evs);
    }
  }

  /** On every timed run, every decision is the decision of the table that expires on time. */
  lemma LazyRefinesEager(evs: seq<Event<Op>>)
    requires evs != [] && Timed(evs)
    ensures Final(evs) == ReferenceFinal(OnTime, evs)
  {
    LazySimulatesEager(Front(evs));
    ActCommutesWithGc(Run(Front(evs)), Last(evs));
    SimulationStep(OnTime, Run(Front(evs)), Run(evs), evs);
  }
}
