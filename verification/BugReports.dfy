/**
 * Bug-report uploads across the broker and the message handlers (src/server.rs, src/broker.rs).
 *
 * A handler makes several broker calls, and calls of other connections may fall between any
 * two of them; one connection handles its messages one after another.  A move is one broker
 * call (or one local action) of one connection, so a run is any interleaving.  A move that its
 * connection cannot make now leaves the state alone.
 */
module BugReports {
  import opened Common
  import Uploads

  const MAX_BUG_REPORT_UPLOAD_SIZE: nat := 10 * 1024 * 1024

  /** Where a connection is inside a handler.  `Idle` between messages. */
  datatype Phase =
    | Idle
    | Marking(id: string, serial: nat)
    | Persisting(id: string, serial: nat, bytes: Bytes, asDesktop: bool)
    | Checking(id: string)
    | Finishing(id: string)
    | Resolving(id: string)

  datatype Move =
    | Begin(conn: Conn, id: string, bugReport: bool, size: nat, asDesktop: bool)
    | Mark(conn: Conn)
    | SendChunk(conn: Conn, id: string, payload: Bytes)
    | End(conn: Conn, id: string, asDesktop: bool)
    | Persist(conn: Conn)
    | CheckOnline(conn: Conn, online: bool)
    | Finish(conn: Conn)
    | Resolve(conn: Conn)
    | DesktopResult(id: string)
    | Disconnect(conn: Conn)

  /**
   * The upload table and every connection's place in its handler, with the history: accepted
   * begins are numbered, and per number we keep who began it, the bytes of its accepted chunks,
   * the screenshots persisted for it, and the connection that took its buffer.
   */
  datatype State = State(
    uploads: Uploads.Table,
    phases: map<Conn, Phase>,
    serials: map<string, nat>,
    beginners: seq<Conn>,
    accepted: seq<Bytes>,
    persisted: seq<seq<Bytes>>,
    takers: map<nat, Conn>)

  const Initial := State(map[], map[], map[], [], [], [], map[])

  function PhaseOf(s: State, conn: Conn): Phase {
    if conn in s.phases then s.phases[conn] else Idle
  }

  function Goto(s: State, conn: Conn, phase: Phase): State {
    s.(phases := s.phases[conn := phase])
  }

  function Call(s: State, e: Event<Move>, op: Uploads.Op): (Uploads.Table, Uploads.Outcome) {
    Uploads.Step(s.uploads, Event(e.at, e.stamp, e.closed, op))
  }

  predicate Numbered(s: State, id: string) {
    id in s.serials && s.serials[id] < |s.accepted| == |s.persisted| == |s.beginners|
  }

  // ---------------------------------------------------------------- moves

  /** Which begins reach the broker: oversized reports do not, nor anything else from a desktop. */
  predicate Admitted(bugReport: bool, size: nat, asDesktop: bool) {
    if bugReport then size <= MAX_BUG_REPORT_UPLOAD_SIZE else !asDesktop
  }

  function BeginMove(s: State, e: Event<Move>): State
    requires e.op.Begin?
  {
    var Begin(conn, id, bugReport, size, asDesktop) := e.op;
    if !PhaseOf(s, conn).Idle? || !Admitted(bugReport, size, asDesktop) then s
    else
      var (table, outcome) := Call(s, e, Uploads.Begin(id, size, conn));
      var called := s.(uploads := table);
      if outcome != Uploads.Begun(Ok(())) then called
      else
        var serial := |s.accepted|;
        var begun := called.(serials := s.serials[id := serial],
                             beginners := s.beginners + [conn],
                             accepted := s.accepted + [[]],
                             persisted := s.persisted + [[]]);
        if bugReport then Goto(begun, conn, Marking(id, serial)) else begun
  }

  function ChunkMove(s: State, e: Event<Move>): State
    requires e.op.SendChunk?
  {
    var SendChunk(conn, id, payload) := e.op;
    if !PhaseOf(s, conn).Idle? then s
    else
      var (table, outcome) := Call(s, e, Uploads.Chunk(id, conn, payload));
      var called := s.(uploads := table);
      if outcome != Uploads.Decided(Uploads.Forward) || !Numbered(s, id) then called
      else called.(accepted := s.accepted[s.serials[id] := s.accepted[s.serials[id]] + payload])
  }

  function EndMove(s: State, e: Event<Move>): State
    requires e.op.End?
  {
    var End(conn, id, asDesktop) := e.op;
    if !PhaseOf(s, conn).Idle? then s
    else
      var (table, outcome) := Call(s, e, Uploads.Take(id, conn));
      var called := s.(uploads := table);
      if outcome.Taken? && outcome.buffer.Some? && Numbered(s, id) then
        Goto(called.(takers := s.takers[s.serials[id] := conn]), conn,
             Persisting(id, s.serials[id], outcome.buffer.value, asDesktop))
      else Goto(called, conn, if asDesktop then Resolving(id) else Finishing(id))
  }

  function PersistMove(s: State, conn: Conn): State {
    var phase := PhaseOf(s, conn);
    if !phase.Persisting? || phase.serial >= |s.persisted| then s
    else
      var next := if phase.asDesktop then Resolving(phase.id) else Checking(phase.id);
      Goto(s.(persisted := s.persisted[phase.serial := s.persisted[phase.serial] + [phase.bytes]]), conn, next)
  }

  function Next(s: State, e: Event<Move>): State {
    match e.op
    case Begin(_, _, _, _, _) => BeginMove(s, e)
    case Mark(conn) =>
      var phase := PhaseOf(s, conn);
      if phase.Marking? then Goto(s.(uploads := Call(s, e, Uploads.Mark(phase.id, conn)).0), conn, Idle) else s
    case SendChunk(_, _, _) => ChunkMove(s, e)
    case End(_, _, _) => EndMove(s, e)
    case Persist(conn) => PersistMove(s, conn)
    case CheckOnline(conn, online) =>
      var phase := PhaseOf(s, conn);
      if phase.Checking? then Goto(s, conn, if online then Finishing(phase.id) else Resolving(phase.id)) else s
    case Finish(conn) =>
      var phase := PhaseOf(s, conn);
      if phase.Finishing? then Goto(s.(uploads := Call(s, e, Uploads.Finish(phase.id, conn)).0), conn, Idle) else s
    case Resolve(conn) =>
      var phase := PhaseOf(s, conn);
      if phase.Resolving? then Goto(s.(uploads := Call(s, e, Uploads.Resolve(phase.id)).0), conn, Idle) else s
    case DesktopResult(id) => s.(uploads := Call(s, e, Uploads.Resolve(id)).0)
    case Disconnect(conn) => s.(uploads := Call(s, e, Uploads.DropOwner(conn)).0)
  }

  function Run(evs: seq<Event<Move>>): State {
    if evs == [] then Initial else Next(Run(Front(evs)), Last(evs))
  }

  // ---------------------------------------------------------------- invariant

  /** The connection is still inside the end handler of this id. */
  predicate Ending(phase: Phase, id: string) {
    (phase.Persisting? || phase.Checking? || phase.Finishing? || phase.Resolving?) && phase.id == id
  }

  predicate EntryOk(s: State, id: string)
    requires id in s.uploads
  {
    && Numbered(s, id)
    && var e := s.uploads[id];
       var n := s.serials[id];
       && e.owner == s.beginners[n]
       && e.forwarded == |s.accepted[n]| <= e.declared
       && (e.buffer.Some? ==> e.buffer.value == s.accepted[n] && e.declared <= MAX_BUG_REPORT_UPLOAD_SIZE && n !in s.takers)
       && (n in s.takers ==> e.finished || Ending(PhaseOf(s, e.owner), id))
  }

  predicate PhaseOk(s: State, conn: Conn) {
    match PhaseOf(s, conn)
    case Marking(id, n) =>
      && n < |s.accepted| && n < |s.beginners| && s.beginners[n] == conn && n !in s.takers
      && (Uploads.OwnedBy(s.uploads, id, conn) ==>
            Numbered(s, id) && s.serials[id] == n && s.accepted[n] == []
            && s.uploads[id].declared <= MAX_BUG_REPORT_UPLOAD_SIZE)
    case Persisting(id, n, bytes, _) =>
      && n < |s.accepted| && n < |s.persisted|
      && n in s.takers && s.takers[n] == conn
      && s.persisted[n] == [] && bytes == s.accepted[n]
    case _ => true
  }

  predicate SerialOk(s: State, n: nat)
    requires n < |s.accepted| && n < |s.persisted|
  {
    if n !in s.takers then s.persisted[n] == []
    else
      && |s.accepted[n]| <= MAX_BUG_REPORT_UPLOAD_SIZE
      && (s.persisted[n] == [s.accepted[n]]
          || (s.persisted[n] == [] && PhaseOf(s, s.takers[n]).Persisting? && PhaseOf(s, s.takers[n]).serial == n))
  }

  /** Numbers are in range, and no two ids share one. */
  ghost predicate Shape(s: State) {
    && |s.accepted| == |s.persisted| == |s.beginners|
    && (forall id :: id in s.serials ==> s.serials[id] < |s.accepted|)
    && (forall n :: n in s.takers ==> n < |s.accepted|)
    && (forall i, j :: i in s.serials && j in s.serials && i != j ==> s.serials[i] != s.serials[j])
  }

  ghost predicate Entries(s: State) {
    forall id :: id in s.uploads ==> EntryOk(s, id)
  }

  ghost predicate Phases(s: State) {
    forall conn :: PhaseOk(s, conn)
  }

  ghost predicate Serials(s: State)
    requires Shape(s)
  {
    forall n :: 0 <= n < |s.accepted| ==> SerialOk(s, n)
  }

  ghost predicate Inv(s: State) {
    Shape(s) && Entries(s) && Phases(s) && Serials(s)
  }

  /** A call that only removes entries, or finishes them, keeps the invariant. */
  lemma ShrinkKeeps(s: State, table: Uploads.Table)
    requires Inv(s)
    requires table.Keys <= s.uploads.Keys
    requires forall id :: id in table ==>
      table[id] == s.uploads[id] || table[id] == s.uploads[id].(finished := true, lastActivity := table[id].lastActivity)
    ensures Inv(s.(uploads := table))
  {
    var t := s.(uploads := table);
    forall id | id in table ensures EntryOk(t, id) {
      assert EntryOk(s, id);
    }
    forall conn ensures PhaseOk(t, conn) {
      assert PhaseOk(s, conn);
    }
    forall n | 0 <= n < |s.accepted| ensures SerialOk(t, n) {
      assert SerialOk(s, n);
    }
  }

  /** Leaving a handler is safe once no taken upload of the connection depends on it. */
  lemma LeaveKeeps(s: State, conn: Conn, phase: Phase)
    requires Inv(s)
    requires !PhaseOf(s, conn).Persisting?
    requires !phase.Marking? && !phase.Persisting?
    requires forall id :: id in s.uploads && s.uploads[id].owner == conn && s.serials[id] in s.takers ==>
      s.uploads[id].finished || Ending(phase, id)
    ensures Inv(Goto(s, conn, phase))
  {
    var t := Goto(s, conn, phase);
    forall id | id in s.uploads ensures EntryOk(t, id) {
      assert EntryOk(s, id);
    }
    forall c ensures PhaseOk(t, c) {
      assert PhaseOk(s, c);
    }
    forall n | 0 <= n < |s.accepted| ensures SerialOk(t, n) {
      assert SerialOk(s, n);
    }
  }

  /** The state right after an accepted begin, before the handler moves on. */
  function Admit(s: State, conn: Conn, id: string, size: nat, stamp: Instant): State {
    s.(uploads := s.uploads[id := Uploads.Entry(conn, size, 0, stamp, false, None)],
       serials := s.serials[id := |s.accepted|],
       beginners := s.beginners + [conn],
       accepted := s.accepted + [[]],
       persisted := s.persisted + [[]])
  }

  lemma AdmitEntries(s: State, conn: Conn, id: string, size: nat, stamp: Instant)
    requires Shape(s) && Entries(s) && id !in s.uploads
    ensures Shape(Admit(s, conn, id, size, stamp)) && Entries(Admit(s, conn, id, size, stamp))
  {
    var t := Admit(s, conn, id, size, stamp);
    forall i | i in t.uploads ensures EntryOk(t, i) {
      if i != id {
        assert EntryOk(s, i);
      }
    }
  }

  lemma AdmitPhases(s: State, conn: Conn, id: string, size: nat, stamp: Instant)
    requires Shape(s) && Phases(s) && PhaseOf(s, conn).Idle? && id !in s.uploads
    ensures Phases(Admit(s, conn, id, size, stamp))
  {
    var t := Admit(s, conn, id, size, stamp);
    forall c ensures PhaseOk(t, c) {
      assert PhaseOk(s, c);
    }
  }

  lemma AdmitSerials(s: State, conn: Conn, id: string, size: nat, stamp: Instant)
    requires Shape(s) && Serials(s) && Shape(Admit(s, conn, id, size, stamp))
    ensures Serials(Admit(s, conn, id, size, stamp))
  {
    var t := Admit(s, conn, id, size, stamp);
    forall n | 0 <= n < |t.accepted| ensures SerialOk(t, n) {
      if n < |s.accepted| {
        assert SerialOk(s, n);
      }
    }
  }

  lemma AdmitKeeps(s: State, conn: Conn, id: string, size: nat, stamp: Instant)
    requires Inv(s) && PhaseOf(s, conn).Idle? && id !in s.uploads
    ensures Inv(Admit(s, conn, id, size, stamp))
  {
    AdmitEntries(s, conn, id, size, stamp);
    AdmitPhases(s, conn, id, size, stamp);
    AdmitSerials(s, conn, id, size, stamp);
  }

  lemma MarkingKeeps(s: State, conn: Conn, id: string)
    requires Inv(s) && PhaseOf(s, conn).Idle? && Uploads.OwnedBy(s.uploads, id, conn)
    requires Numbered(s, id) && s.accepted[s.serials[id]] == [] && s.serials[id] !in s.takers
    requires s.uploads[id].declared <= MAX_BUG_REPORT_UPLOAD_SIZE
    ensures Inv(Goto(s, conn, Marking(id, s.serials[id])))
  {
    assert EntryOk(s, id);
    var t := Goto(s, conn, Marking(id, s.serials[id]));
    forall i | i in t.uploads ensures EntryOk(t, i) {
      assert EntryOk(s, i);
    }
    forall c ensures PhaseOk(t, c) {
      assert PhaseOk(s, c);
    }
    forall n | 0 <= n < |t.accepted| ensures SerialOk(t, n) {
      assert SerialOk(s, n);
    }
  }

  /** The four ways a begin can go. */
  lemma BeginCases(s: State, e: Event<Move>)
    requires e.op.Begin?
    ensures
      var op := e.op;
      var swept := s.(uploads := Uploads.Gc(s.uploads, e.at));
      var admitted := Admit(swept, op.conn, op.id, op.size, e.stamp);
      || BeginMove(s, e) == s
      || BeginMove(s, e) == swept
      || (&& PhaseOf(s, op.conn).Idle? && op.id !in swept.uploads
          && Admitted(op.bugReport, op.size, op.asDesktop)
          && BeginMove(s, e) == if op.bugReport then Goto(admitted, op.conn, Marking(op.id, |s.accepted|)) else admitted)
  {
  }

  lemma BeginKeeps(s: State, e: Event<Move>)
    requires Inv(s) && e.op.Begin?
    ensures Inv(BeginMove(s, e))
  {
    BeginCases(s, e);
    var op := e.op;
    var swept := s.(uploads := Uploads.Gc(s.uploads, e.at));
    ShrinkKeeps(s, swept.uploads);
    if PhaseOf(s, op.conn).Idle? && op.id !in swept.uploads {
      AdmitKeeps(swept, op.conn, op.id, op.size, e.stamp);
      if op.bugReport && op.size <= MAX_BUG_REPORT_UPLOAD_SIZE {
        MarkingKeeps(Admit(swept, op.conn, op.id, op.size, e.stamp), op.conn, op.id);
      }
    }
  }

  lemma MarkKeeps(s: State, conn: Conn)
    requires Inv(s) && PhaseOf(s, conn).Marking?
    ensures
      var t := s.(uploads := Uploads.Act(s.uploads, Uploads.Mark(PhaseOf(s, conn).id, conn), 0).0);
      Inv(Goto(t, conn, Idle))
  {
    assert PhaseOk(s, conn);
    var t := s.(uploads := Uploads.Act(s.uploads, Uploads.Mark(PhaseOf(s, conn).id, conn), 0).0);
    forall id | id in t.uploads ensures EntryOk(t, id) {
      assert EntryOk(s, id);
    }
    forall c ensures PhaseOk(t, c) {
      assert PhaseOk(s, c);
    }
    forall n | 0 <= n < |s.accepted| ensures SerialOk(t, n) {
      assert SerialOk(s, n);
    }
    forall id | id in t.uploads && t.uploads[id].owner == conn && t.serials[id] in t.takers ensures t.uploads[id].finished {
      assert EntryOk(t, id);
    }
    LeaveKeeps(t, conn, Idle);
  }

  lemma ChunkKeeps(s: State, e: Event<Move>)
    requires Inv(s) && e.op.SendChunk?
    ensures Inv(ChunkMove(s, e))
  {
    var SendChunk(conn, id, payload) := e.op;
    if PhaseOf(s, conn).Idle? {
      var swept := Uploads.Gc(s.uploads, e.at);
      ShrinkKeeps(s, swept);
      var outcome := Call(s, e, Uploads.Chunk(id, conn, payload)).1;
      if outcome == Uploads.Decided(Uploads.Forward) {
        assert EntryOk(s.(uploads := swept), id);
        ExtendKeeps(s.(uploads := swept), ChunkMove(s, e), conn, id, payload, e.stamp);
      } else {
        ShrinkKeeps(s, Call(s, e, Uploads.Chunk(id, conn, payload)).0);
      }
    }
  }

  lemma ExtendKeeps(s: State, t: State, conn: Conn, id: string, payload: Bytes, stamp: Instant)
    requires Inv(s) && PhaseOf(s, conn).Idle? && Uploads.OwnedBy(s.uploads, id, conn) && !s.uploads[id].finished
    requires Numbered(s, id)
    requires s.uploads[id].forwarded + |payload| <= s.uploads[id].declared
    requires t == s.(uploads := s.uploads[id := Uploads.Extended(s.uploads[id], payload, stamp)],
                     accepted := s.accepted[s.serials[id] := s.accepted[s.serials[id]] + payload])
    ensures Inv(t)
  {
    assert EntryOk(s, id);
    assert s.serials[id] !in s.takers;
    forall i | i in t.uploads ensures EntryOk(t, i) {
      assert EntryOk(s, i);
    }
    forall c ensures PhaseOk(t, c) {
      assert PhaseOk(s, c);
    }
    forall n | 0 <= n < |t.accepted| ensures SerialOk(t, n) {
      assert SerialOk(s, n);
    }
  }

  lemma EndKeeps(s: State, e: Event<Move>)
    requires Inv(s) && e.op.End?
    ensures Inv(EndMove(s, e))
  {
    var End(conn, id, asDesktop) := e.op;
    if PhaseOf(s, conn).Idle? {
      if Uploads.OwnedBy(s.uploads, id, conn) {
        assert EntryOk(s, id);
      }
      if Uploads.OwnedBy(s.uploads, id, conn) && s.uploads[id].buffer.Some? {
        TakeKeeps(s, EndMove(s, e), conn, id, asDesktop);
      } else {
        assert Call(s, e, Uploads.Take(id, conn)).0 == s.uploads;
        forall i | i in s.uploads && s.uploads[i].owner == conn && s.serials[i] in s.takers ensures s.uploads[i].finished {
          assert EntryOk(s, i);
        }
        LeaveKeeps(s, conn, if asDesktop then Resolving(id) else Finishing(id));
      }
    }
  }

  lemma TakeKeeps(s: State, t: State, conn: Conn, id: string, asDesktop: bool)
    requires Inv(s) && PhaseOf(s, conn).Idle? && Uploads.OwnedBy(s.uploads, id, conn)
    requires Numbered(s, id) && s.uploads[id].buffer.Some?
    requires t == s.(uploads := s.uploads[id := s.uploads[id].(buffer := None)],
                     takers := s.takers[s.serials[id] := conn],
                     phases := s.phases[conn := Persisting(id, s.serials[id], s.uploads[id].buffer.value, asDesktop)])
    ensures Inv(t)
  {
    assert EntryOk(s, id);
    assert SerialOk(s, s.serials[id]);
    forall i | i in t.uploads ensures EntryOk(t, i) {
      assert EntryOk(s, i);
    }
    forall c ensures PhaseOk(t, c) {
      assert PhaseOk(s, c);
    }
    forall n | 0 <= n < |t.accepted| ensures SerialOk(t, n) {
      assert SerialOk(s, n);
    }
  }

  lemma PersistKeeps(s: State, conn: Conn)
    requires Inv(s)
    ensures Inv(PersistMove(s, conn))
  {
    var t := PersistMove(s, conn);
    assert PhaseOk(s, conn);
    forall i | i in t.uploads ensures EntryOk(t, i) {
      assert EntryOk(s, i);
    }
    forall c ensures PhaseOk(t, c) {
      assert PhaseOk(s, c);
    }
    forall n | 0 <= n < |t.accepted| ensures SerialOk(t, n) {
      assert SerialOk(s, n);
    }
  }

  /** The last call of an end handler settles the upload it was about, then the handler is left. */
  lemma SettleKeeps(s: State, conn: Conn, table: Uploads.Table, id: string)
    requires Inv(s) && (PhaseOf(s, conn).Finishing? || PhaseOf(s, conn).Resolving?) && PhaseOf(s, conn).id == id
    requires table.Keys <= s.uploads.Keys
    requires forall i :: i in table ==>
      table[i] == s.uploads[i] || table[i] == s.uploads[i].(finished := true, lastActivity := table[i].lastActivity)
    requires id in table && table[id].owner == conn ==> table[id].finished
    ensures Inv(Goto(s.(uploads := table), conn, Idle))
  {
    ShrinkKeeps(s, table);
    var t := s.(uploads := table);
    forall i | i in t.uploads && t.uploads[i].owner == conn && t.serials[i] in t.takers ensures t.uploads[i].finished {
      assert EntryOk(t, i);
    }
    LeaveKeeps(t, conn, Idle);
  }

  lemma CheckKeeps(s: State, conn: Conn, online: bool)
    requires Inv(s) && PhaseOf(s, conn).Checking?
    ensures
      var id := PhaseOf(s, conn).id;
      Inv(Goto(s, conn, if online then Finishing(id) else Resolving(id)))
  {
    var id := PhaseOf(s, conn).id;
    var phase := if online then Finishing(id) else Resolving(id);
    forall i | i in s.uploads && s.uploads[i].owner == conn && s.serials[i] in s.takers
      ensures s.uploads[i].finished || Ending(phase, i)
    {
      assert EntryOk(s, i);
    }
    LeaveKeeps(s, conn, phase);
  }

  lemma FinishKeeps(s: State, e: Event<Move>)
    requires Inv(s) && e.op.Finish?
    ensures Inv(Next(s, e))
  {
    var phase := PhaseOf(s, e.op.conn);
    if phase.Finishing? {
      SettleKeeps(s, e.op.conn, Call(s, e, Uploads.Finish(phase.id, e.op.conn)).0, phase.id);
    }
  }

  lemma ResolveKeeps(s: State, e: Event<Move>)
    requires Inv(s) && e.op.Resolve?
    ensures Inv(Next(s, e))
  {
    var phase := PhaseOf(s, e.op.conn);
    if phase.Resolving? {
      SettleKeeps(s, e.op.conn, Call(s, e, Uploads.Resolve(phase.id)).0, phase.id);
    }
  }

  lemma RemovalKeeps(s: State, e: Event<Move>)
    requires Inv(s) && (e.op.DesktopResult? || e.op.Disconnect?)
    ensures Inv(Next(s, e))
  {
    if e.op.DesktopResult? {
      ShrinkKeeps(s, Call(s, e, Uploads.Resolve(e.op.id)).0);
    } else {
      ShrinkKeeps(s, Call(s, e, Uploads.DropOwner(e.op.conn)).0);
    }
  }

  lemma NextKeeps(s: State, e: Event<Move>)
    requires Inv(s)
    ensures Inv(Next(s, e))
  {
    match e.op
    case Begin(_, _, _, _, _) => BeginKeeps(s, e);
    case Mark(conn) => if PhaseOf(s, conn).Marking? { MarkKeeps(s, conn); }
    case SendChunk(_, _, _) => ChunkKeeps(s, e);
    case End(_, _, _) => EndKeeps(s, e);
    case Persist(conn) => PersistKeeps(s, conn);
    case CheckOnline(conn, online) => if PhaseOf(s, conn).Checking? { CheckKeeps(s, conn, online); }
    case Finish(_) => FinishKeeps(s, e);
    case Resolve(_) => ResolveKeeps(s, e);
    case DesktopResult(_) => RemovalKeeps(s, e);
    case Disconnect(_) => RemovalKeeps(s, e);
  }

  lemma {:induction false} AlwaysInv(evs: seq<Event<Move>>)
    ensures Inv(Run(evs))
  {
    if evs != [] {
      AlwaysInv(Front(evs));
      NextKeeps(Run(Front(evs)), Last(evs));
    } else {
      assert forall conn :: PhaseOf(Initial, conn) == Idle;
    }
  }

  /**
   * For every interleaving and every accepted begin: its screenshot is persisted at most once;
   * what is persisted is the in-order concatenation of all the chunk payloads ever accepted for
   * it, at most 10 MiB; and a buffer that was taken is persisted or its taker is about to do so.
   */
  lemma DualWrite(evs: seq<Event<Move>>, n: nat)
    requires n < |Run(evs).accepted|
    ensures
      var s := Run(evs);
      && n < |s.persisted|
      && (s.persisted[n] == [] || (s.persisted[n] == [s.accepted[n]] && |s.accepted[n]| <= MAX_BUG_REPORT_UPLOAD_SIZE))
      && (n in s.takers ==> s.persisted[n] == [s.accepted[n]] || PhaseOf(s, s.takers[n]).Persisting?)
  {
    AlwaysInv(evs);
    assert SerialOk(Run(evs), n);
  }
}
