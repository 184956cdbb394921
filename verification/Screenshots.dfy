/**
 * Which screenshots are persisted, told from the events alone (src/server.rs).
 *
 * The story of a run follows each connection through its handlers, as the source has them, and
 * notes which accepted begins were marked as bug reports and which of those were ended by the
 * connection that began them while still live.  It looks at no buffer.
 */
module Screenshots {
  import opened Common
  import Uploads
  import opened BugReports

  /** The step of a handler that a connection takes next; `Free` between messages. */
  datatype Place =
    | Free
    | ToMark(id: string, serial: nat)
    | ToPersist(id: string, serial: nat, asDesktop: bool)
    | ToCheck(id: string)
    | ToFinish(id: string)
    | ToResolve(id: string)

  datatype Story = Story(places: map<Conn, Place>, marked: set<nat>, ended: set<nat>)

  function PlaceOf(h: Story, conn: Conn): Place {
    if conn in h.places then h.places[conn] else Free
  }

  function Goes(h: Story, conn: Conn, place: Place): Story {
    h.(places := h.places[conn := place])
  }

  /** The connection began the upload that is live under this id. */
  predicate Owns(s: State, id: string, conn: Conn) {
    Uploads.OwnedBy(s.uploads, id, conn) && Numbered(s, id)
  }

  /** That upload was marked as a bug report and not ended yet. */
  predicate Awaits(h: Story, s: State, id: string, conn: Conn) {
    Owns(s, id, conn) && s.serials[id] in h.marked && s.serials[id] !in h.ended
  }

  function Told(h: Story, s: State, t: State, op: Move): Story {
    match op
    case Begin(conn, id, bugReport, _, _) =>
      if bugReport && |t.accepted| > |s.accepted| then Goes(h, conn, ToMark(id, |s.accepted|)) else h
    case Mark(conn) =>
      var place := PlaceOf(h, conn);
      if !place.ToMark? then h
      else if Owns(s, place.id, conn) then Goes(h.(marked := h.marked + {place.serial}), conn, Free)
      else Goes(h, conn, Free)
    case End(conn, id, asDesktop) =>
      if !PlaceOf(h, conn).Free? then h
      else if Awaits(h, s, id, conn) then
        Goes(h.(ended := h.ended + {s.serials[id]}), conn, ToPersist(id, s.serials[id], asDesktop))
      else Goes(h, conn, if asDesktop then ToResolve(id) else ToFinish(id))
    case Persist(conn) =>
      var place := PlaceOf(h, conn);
      if place.ToPersist? then Goes(h, conn, if place.asDesktop then ToResolve(place.id) else ToCheck(place.id)) else h
    case CheckOnline(conn, online) =>
      var place := PlaceOf(h, conn);
      if place.ToCheck? then Goes(h, conn, if online then ToFinish(place.id) else ToResolve(place.id)) else h
    case Finish(conn) => if PlaceOf(h, conn).ToFinish? then Goes(h, conn, Free) else h
    case Resolve(conn) => if PlaceOf(h, conn).ToResolve? then Goes(h, conn, Free) else h
    case _ => h
  }

  function StoryOf(evs: seq<Event<Move>>): Story {
    if evs == [] then Story(map[], {}, {})
    else Told(StoryOf(Front(evs)), Run(Front(evs)), Run(evs), Last(evs).op)
  }

  // ---------------------------------------------------------------- the handlers follow the story

  predicate Matches(phase: Phase, place: Place) {
    match phase
    case Idle => place == Free
    case Marking(id, n) => place == ToMark(id, n)
    case Persisting(id, n, _, asDesktop) => place == ToPersist(id, n, asDesktop)
    case Checking(id) => place == ToCheck(id)
    case Finishing(id) => place == ToFinish(id)
    case Resolving(id) => place == ToResolve(id)
  }

  /** Every connection is where the story says. */
  ghost predicate PlacesMatch(s: State, h: Story) {
    forall conn :: Matches(PhaseOf(s, conn), PlaceOf(h, conn))
  }

  /** A live upload has a buffer exactly if it was marked and not ended. */
  predicate BufferMatches(s: State, h: Story, id: string) {
    id in s.uploads ==>
      Numbered(s, id) && (s.uploads[id].buffer.Some? <==> s.serials[id] in h.marked && s.serials[id] !in h.ended)
  }

  ghost predicate BuffersMatch(s: State, h: Story) {
    forall id :: BufferMatches(s, h, id)
  }

  /** What was taken is what was ended, each by the connection that began it. */
  ghost predicate TakersMatch(s: State, h: Story) {
    && (forall n :: n in s.takers <==> n in h.ended)
    && (forall n :: n in h.ended ==> n < |s.beginners| && s.takers[n] == s.beginners[n])
    && (forall n :: n in h.marked ==> n < |s.accepted|)
  }

  ghost predicate Follows(s: State, h: Story) {
    Inv(s) && PlacesMatch(s, h) && BuffersMatch(s, h) && TakersMatch(s, h)
  }

  /** The end handler takes a buffer exactly where the story says. */
  lemma TakesWhatAwaits(s: State, h: Story, id: string, conn: Conn)
    requires Inv(s) && BufferMatches(s, h, id)
    ensures Awaits(h, s, id, conn) <==> Uploads.OwnedBy(s.uploads, id, conn) && s.uploads[id].buffer.Some?
  {
  }

  /** The connection that makes a move. */
  predicate Makes(op: Move, conn: Conn) {
    !op.DesktopResult? && !op.Disconnect? && op.conn == conn
  }

  lemma PhaseStays(s: State, e: Event<Move>, conn: Conn)
    requires !Makes(e.op, conn)
    ensures PhaseOf(Next(s, e), conn) == PhaseOf(s, conn)
  {
    match e.op
    case Begin(_, _, _, _, _) => BeginPhase(s, e, conn);
    case End(_, _, _) => EndPhase(s, e, conn);
    case _ =>
  }

  lemma BeginPhase(s: State, e: Event<Move>, conn: Conn)
    requires e.op.Begin? && e.op.conn != conn
    ensures PhaseOf(BeginMove(s, e), conn) == PhaseOf(s, conn)
  {
  }

  lemma EndPhase(s: State, e: Event<Move>, conn: Conn)
    requires e.op.End? && e.op.conn != conn
    ensures PhaseOf(EndMove(s, e), conn) == PhaseOf(s, conn)
  {
  }

  lemma PlaceStays(h: Story, s: State, t: State, op: Move, conn: Conn)
    requires !Makes(op, conn)
    ensures PlaceOf(Told(h, s, t, op), conn) == PlaceOf(h, conn)
  {
  }

  lemma BeginMoves(s: State, h: Story, e: Event<Move>)
    requires Inv(s) && e.op.Begin? && Matches(PhaseOf(s, e.op.conn), PlaceOf(h, e.op.conn))
    ensures Matches(PhaseOf(Next(s, e), e.op.conn), PlaceOf(Told(h, s, Next(s, e), e.op), e.op.conn))
  {
  }

  lemma EndMoves(s: State, h: Story, e: Event<Move>)
    requires Inv(s) && e.op.End? && Matches(PhaseOf(s, e.op.conn), PlaceOf(h, e.op.conn)) && BufferMatches(s, h, e.op.id)
    ensures Matches(PhaseOf(Next(s, e), e.op.conn), PlaceOf(Told(h, s, Next(s, e), e.op), e.op.conn))
  {
    TakesWhatAwaits(s, h, e.op.id, e.op.conn);
  }

  lemma MakerMoves(s: State, h: Story, e: Event<Move>, conn: Conn)
    requires Inv(s) && Makes(e.op, conn) && !e.op.Begin? && !e.op.End?
    requires Matches(PhaseOf(s, conn), PlaceOf(h, conn))
    ensures Matches(PhaseOf(Next(s, e), conn), PlaceOf(Told(h, s, Next(s, e), e.op), conn))
  {
    assert PhaseOk(s, conn);
  }

  lemma PlacesFollow(s: State, h: Story, e: Event<Move>)
    requires Follows(s, h)
    ensures PlacesMatch(Next(s, e), Told(h, s, Next(s, e), e.op))
  {
    forall conn ensures Matches(PhaseOf(Next(s, e), conn), PlaceOf(Told(h, s, Next(s, e), e.op), conn)) {
      assert Matches(PhaseOf(s, conn), PlaceOf(h, conn));
      if !Makes(e.op, conn) {
        PhaseStays(s, e, conn);
        PlaceStays(h, s, Next(s, e), e.op, conn);
      } else if e.op.Begin? {
        BeginMoves(s, h, e);
      } else if e.op.End? {
        assert BufferMatches(s, h, e.op.id);
        EndMoves(s, h, e);
      } else {
        MakerMoves(s, h, e, conn);
      }
    }
  }

  /** Broker calls that neither begin, mark nor take leave every entry with or without its buffer. */
  lemma BufferStays(table: Uploads.Table, e: Event<Uploads.Op>, id: string)
    requires !e.op.Begin? && !e.op.Mark? && !e.op.Take? && id in Uploads.Step(table, e).0
    ensures id in table && (Uploads.Step(table, e).0[id].buffer.Some? <==> table[id].buffer.Some?)
  {
  }

  lemma ChunkStays(s: State, e: Event<Move>, id: string)
    requires e.op.SendChunk? && id in Next(s, e).uploads
    ensures id in s.uploads && Next(s, e).serials == s.serials
    ensures Next(s, e).uploads[id].buffer.Some? <==> s.uploads[id].buffer.Some?
    ensures |Next(s, e).accepted| == |s.accepted| && Next(s, e).persisted == s.persisted && Next(s, e).beginners == s.beginners
  {
    if PhaseOf(s, e.op.conn).Idle? {
      BufferStays(s.uploads, Event(e.at, e.stamp, e.closed, Uploads.Chunk(e.op.id, e.op.conn, e.op.payload)), id);
    }
  }

  /** The broker call of a move that settles or removes uploads. */
  function Settles(s: State, op: Move): Option<Uploads.Op> {
    match op
    case Finish(conn) => if PhaseOf(s, conn).Finishing? then Some(Uploads.Finish(PhaseOf(s, conn).id, conn)) else None
    case Resolve(conn) => if PhaseOf(s, conn).Resolving? then Some(Uploads.Resolve(PhaseOf(s, conn).id)) else None
    case DesktopResult(id) => Some(Uploads.Resolve(id))
    case Disconnect(conn) => Some(Uploads.DropOwner(conn))
    case _ => None
  }

  lemma SettlesUploads(s: State, e: Event<Move>)
    requires !e.op.Begin? && !e.op.Mark? && !e.op.End? && !e.op.SendChunk?
    ensures
      var op := Settles(s, e.op);
      Next(s, e).uploads == if op.Some? then Uploads.Step(s.uploads, Event(e.at, e.stamp, e.closed, op.value)).0 else s.uploads
  {
  }

  lemma SettlesNothingElse(s: State, e: Event<Move>)
    requires !e.op.Begin? && !e.op.Mark? && !e.op.End? && !e.op.SendChunk?
    ensures Next(s, e).serials == s.serials && Next(s, e).accepted == s.accepted
    ensures |Next(s, e).persisted| == |s.persisted| && Next(s, e).beginners == s.beginners
  {
  }

  lemma SettleStays(s: State, h: Story, e: Event<Move>, id: string)
    requires !e.op.Begin? && !e.op.Mark? && !e.op.End? && !e.op.SendChunk? && BufferMatches(s, h, id)
    ensures BufferMatches(Next(s, e), h, id)
  {
    SettlesUploads(s, e);
    SettlesNothingElse(s, e);
    var op := Settles(s, e.op);
    if op.Some? && id in Next(s, e).uploads {
      BufferStays(s.uploads, Event(e.at, e.stamp, e.closed, op.value), id);
    }
  }

  lemma BeginBuffer(s: State, h: Story, e: Event<Move>, id: string)
    requires Inv(s) && TakersMatch(s, h) && BufferMatches(s, h, id) && e.op.Begin?
    ensures BufferMatches(Next(s, e), Told(h, s, Next(s, e), e.op), id)
  {
    BeginCases(s, e);
    if id in Next(s, e).uploads {
      BeginKeeps(s, e);
      assert EntryOk(Next(s, e), id);
    }
  }

  lemma MarkBuffer(s: State, h: Story, e: Event<Move>, id: string)
    requires Inv(s) && TakersMatch(s, h) && BufferMatches(s, h, id) && e.op.Mark?
    requires Matches(PhaseOf(s, e.op.conn), PlaceOf(h, e.op.conn))
    ensures BufferMatches(Next(s, e), Told(h, s, Next(s, e), e.op), id)
  {
    assert PhaseOk(s, e.op.conn);
    if id in s.uploads {
      assert EntryOk(s, id);
    }
    var phase := PhaseOf(s, e.op.conn);
    if phase.Marking? && phase.id in s.uploads {
      assert EntryOk(s, phase.id);
    }
  }

  lemma EndBuffer(s: State, h: Story, e: Event<Move>, id: string)
    requires e.op.End? && Inv(s) && BufferMatches(s, h, id) && BufferMatches(s, h, e.op.id)
    requires Matches(PhaseOf(s, e.op.conn), PlaceOf(h, e.op.conn))
    ensures BufferMatches(Next(s, e), Told(h, s, Next(s, e), e.op), id)
  {
    TakesWhatAwaits(s, h, e.op.id, e.op.conn);
  }

  lemma BuffersFollow(s: State, h: Story, e: Event<Move>)
    requires Follows(s, h)
    ensures BuffersMatch(Next(s, e), Told(h, s, Next(s, e), e.op))
  {
    forall id ensures BufferMatches(Next(s, e), Told(h, s, Next(s, e), e.op), id) {
      assert BufferMatches(s, h, id);
      if e.op.Begin? {
        BeginBuffer(s, h, e, id);
      } else if e.op.Mark? {
        assert Matches(PhaseOf(s, e.op.conn), PlaceOf(h, e.op.conn));
        MarkBuffer(s, h, e, id);
      } else if e.op.End? {
        assert Matches(PhaseOf(s, e.op.conn), PlaceOf(h, e.op.conn)) && BufferMatches(s, h, e.op.id);
        EndBuffer(s, h, e, id);
      } else if e.op.SendChunk? {
        if id in Next(s, e).uploads {
          ChunkStays(s, e, id);
        }
      } else {
        SettleStays(s, h, e, id);
      }
    }
  }

  /** Who took what changes only at the end of an upload, and how many begins there are only at a begin. */
  lemma TakersStay(s: State, e: Event<Move>)
    requires !e.op.End?
    ensures Next(s, e).takers == s.takers && s.beginners <= Next(s, e).beginners && |s.accepted| <= |Next(s, e).accepted|
  {
    match e.op
    case Begin(_, _, _, _, _) => BeginCases(s, e);
    case SendChunk(_, _, _) => ChunkTakers(s, e);
    case _ =>
  }

  lemma ChunkTakers(s: State, e: Event<Move>)
    requires e.op.SendChunk?
    ensures
      var t := ChunkMove(s, e);
      t.takers == s.takers && t.beginners == s.beginners && |t.accepted| == |s.accepted|
  {
  }

  lemma EndTakers(s: State, h: Story, e: Event<Move>)
    requires e.op.End? && Inv(s) && TakersMatch(s, h) && BufferMatches(s, h, e.op.id)
    requires Matches(PhaseOf(s, e.op.conn), PlaceOf(h, e.op.conn))
    ensures TakersMatch(Next(s, e), Told(h, s, Next(s, e), e.op))
  {
    TakesWhatAwaits(s, h, e.op.id, e.op.conn);
    if Awaits(h, s, e.op.id, e.op.conn) {
      assert EntryOk(s, e.op.id);
    }
  }

  lemma TakersFollow(s: State, h: Story, e: Event<Move>)
    requires Follows(s, h)
    ensures TakersMatch(Next(s, e), Told(h, s, Next(s, e), e.op))
  {
    if e.op.End? {
      assert Matches(PhaseOf(s, e.op.conn), PlaceOf(h, e.op.conn)) && BufferMatches(s, h, e.op.id);
      EndTakers(s, h, e);
    } else {
      TakersStay(s, e);
      if e.op.Mark? {
        assert Matches(PhaseOf(s, e.op.conn), PlaceOf(h, e.op.conn)) && PhaseOk(s, e.op.conn);
      }
    }
  }

  lemma {:induction false} AlwaysFollows(evs: seq<Event<Move>>)
    ensures Follows(Run(evs), StoryOf(evs))
  {
    AlwaysInv(evs);
    if evs != [] {
      AlwaysFollows(Front(evs));
      var s, h, e := Run(Front(evs)), StoryOf(Front(evs)), Last(evs);
      PlacesFollow(s, h, e);
      BuffersFollow(s, h, e);
      TakersFollow(s, h, e);
    }
  }

  // ---------------------------------------------------------------- the broker calls of a run

  /** The broker call about uploads that an event comes down to, by the story. */
  function CallFor(h: Story, op: Move): Option<Uploads.Op> {
    match op
    case Begin(conn, id, bugReport, size, asDesktop) =>
      if PlaceOf(h, conn).Free? && (if bugReport then size <= 10_485_760 else !asDesktop) then Some(Uploads.Begin(id, size, conn))
      else None
    case Mark(conn) => if PlaceOf(h, conn).ToMark? then Some(Uploads.Mark(PlaceOf(h, conn).id, conn)) else None
    case SendChunk(conn, id, payload) => if PlaceOf(h, conn).Free? then Some(Uploads.Chunk(id, conn, payload)) else None
    case End(conn, id, _) => if PlaceOf(h, conn).Free? then Some(Uploads.Take(id, conn)) else None
    case Finish(conn) => if PlaceOf(h, conn).ToFinish? then Some(Uploads.Finish(PlaceOf(h, conn).id, conn)) else None
    case Resolve(conn) => if PlaceOf(h, conn).ToResolve? then Some(Uploads.Resolve(PlaceOf(h, conn).id)) else None
    case DesktopResult(id) => Some(Uploads.Resolve(id))
    case Disconnect(conn) => Some(Uploads.DropOwner(conn))
    case _ => None
  }

  function CallsOf(evs: seq<Event<Move>>): seq<Event<Uploads.Op>> {
    if evs == [] then []
    else
      var past, e := CallsOf(Front(evs)), Last(evs);
      var call := CallFor(StoryOf(Front(evs)), e.op);
      if call.None? then past else past + [Event(e.at, e.stamp, e.closed, call.value)]
  }

  /** The table after a call, or as it was. */
  function Called(table: Uploads.Table, e: Event<Move>, call: Option<Uploads.Op>): Uploads.Table {
    if call.None? then table else Uploads.Step(table, Event(e.at, e.stamp, e.closed, call.value)).0
  }

  lemma BeginCalls(s: State, h: Story, e: Event<Move>)
    requires e.op.Begin? && Matches(PhaseOf(s, e.op.conn), PlaceOf(h, e.op.conn))
    ensures BeginMove(s, e).uploads == Called(s.uploads, e, CallFor(h, e.op))
  {
  }

  lemma ChunkCalls(s: State, h: Story, e: Event<Move>)
    requires e.op.SendChunk? && Matches(PhaseOf(s, e.op.conn), PlaceOf(h, e.op.conn))
    ensures ChunkMove(s, e).uploads == Called(s.uploads, e, CallFor(h, e.op))
  {
  }

  lemma EndCalls(s: State, h: Story, e: Event<Move>)
    requires e.op.End? && Matches(PhaseOf(s, e.op.conn), PlaceOf(h, e.op.conn))
    ensures EndMove(s, e).uploads == Called(s.uploads, e, CallFor(h, e.op))
  {
  }

  lemma MarkCalls(s: State, h: Story, e: Event<Move>)
    requires e.op.Mark? && Matches(PhaseOf(s, e.op.conn), PlaceOf(h, e.op.conn))
    ensures Next(s, e).uploads == Called(s.uploads, e, CallFor(h, e.op))
  {
  }

  lemma OtherCalls(s: State, h: Story, e: Event<Move>)
    requires !e.op.Begin? && !e.op.Mark? && !e.op.End? && !e.op.SendChunk? && PlacesMatch(s, h)
    ensures Next(s, e).uploads == Called(s.uploads, e, CallFor(h, e.op))
  {
    SettlesUploads(s, e);
    if e.op.Finish? || e.op.Resolve? {
      assert Matches(PhaseOf(s, e.op.conn), PlaceOf(h, e.op.conn));
    }
    assert Settles(s, e.op) == CallFor(h, e.op);
  }

  lemma StepCalls(s: State, h: Story, e: Event<Move>)
    requires PlacesMatch(s, h)
    ensures Next(s, e).uploads == Called(s.uploads, e, CallFor(h, e.op))
  {
    if e.op.Begin? {
      assert Matches(PhaseOf(s, e.op.conn), PlaceOf(h, e.op.conn));
      BeginCalls(s, h, e);
    } else if e.op.SendChunk? {
      assert Matches(PhaseOf(s, e.op.conn), PlaceOf(h, e.op.conn));
      ChunkCalls(s, h, e);
    } else if e.op.End? {
      assert Matches(PhaseOf(s, e.op.conn), PlaceOf(h, e.op.conn));
      EndCalls(s, h, e);
    } else if e.op.Mark? {
      assert Matches(PhaseOf(s, e.op.conn), PlaceOf(h, e.op.conn));
      MarkCalls(s, h, e);
    } else {
      OtherCalls(s, h, e);
    }
  }

  /**
   * However handlers interleave, the upload table is the run of their broker calls, in the
   * source's order: so every answer is the one the history of those calls determines.
   */
  lemma {:induction false} HandlersCall(evs: seq<Event<Move>>)
    ensures Run(evs).uploads == Uploads.Run(CallsOf(evs))
  {
    if evs != [] {
      HandlersCall(Front(evs));
      AlwaysFollows(Front(evs));
      StepCalls(Run(Front(evs)), StoryOf(Front(evs)), Last(evs));
      var past := CallsOf(Front(evs));
      assert forall c :: Front(past + [c]) == past;
    }
  }

  // ---------------------------------------------------------------- what is persisted

  /** The connection that began an upload is about to persist its screenshot. */
  predicate AboutToPersist(s: State, h: Story, n: nat) {
    n < |s.beginners| && PlaceOf(h, s.beginners[n]).ToPersist? && PlaceOf(h, s.beginners[n]).serial == n
  }

  /**
   * On every run, for every accepted begin: its screenshot is persisted if and only if it was
   * marked and then ended by its own connection while live, as a client or as a desktop, and
   * that connection is past the persisting step; it is persisted once, it is all the bytes ever
   * accepted for the begin, and at most 10 MiB.
   */
  lemma PersistedExactly(evs: seq<Event<Move>>, n: nat)
    requires n < |Run(evs).accepted|
    ensures
      var s, h := Run(evs), StoryOf(evs);
      && n < |s.persisted|
      && s.persisted[n] == (if n in h.ended && !AboutToPersist(s, h, n) then [s.accepted[n]] else [])
      && (n in h.ended ==> |s.accepted[n]| <= 10_485_760)
  {
    AlwaysFollows(evs);
    var s, h := Run(evs), StoryOf(evs);
    assert SerialOk(s, n);
    if n in h.ended {
      var conn := s.beginners[n];
      assert PhaseOk(s, conn) && Matches(PhaseOf(s, conn), PlaceOf(h, conn));
    }
  }

  /** Events that leave a connection where it is about to persist. */
  predicate NoPersist(evs: seq<Event<Move>>, conn: Conn) {
    forall i :: 0 <= i < |evs| ==> evs[i].op != Persist(conn)
  }

  function After(s: State, evs: seq<Event<Move>>): State {
    if evs == [] then s else Next(After(s, Front(evs)), Last(evs))
  }

  lemma PersistingStays(s: State, e: Event<Move>, conn: Conn)
    requires PhaseOf(s, conn).Persisting? && e.op != Persist(conn)
    ensures PhaseOf(Next(s, e), conn) == PhaseOf(s, conn) && |s.persisted| <= |Next(s, e).persisted|
  {
  }

  lemma {:induction false} StillPersisting(s: State, evs: seq<Event<Move>>, conn: Conn)
    requires PhaseOf(s, conn).Persisting? && NoPersist(evs, conn)
    ensures PhaseOf(After(s, evs), conn) == PhaseOf(s, conn)
    ensures |s.persisted| <= |After(s, evs).persisted|
  {
    if evs != [] {
      StillPersisting(s, Front(evs), conn);
      PersistingStays(After(s, Front(evs)), Last(evs), conn);
    }
  }

  /**
   * Whenever a free connection that began a live, marked upload ends it, as a client or as a
   * desktop, its next persisting step appends exactly the bytes accepted for that begin,
   * whatever other connections do in between.
   */
  lemma EndIsPersisted(evs: seq<Event<Move>>, end: Event<Move>, between: seq<Event<Move>>, persist: Event<Move>)
    requires end.op.End? && persist.op == Persist(end.op.conn) && NoPersist(between, end.op.conn)
    requires PlaceOf(StoryOf(evs), end.op.conn) == Free
    requires Awaits(StoryOf(evs), Run(evs), end.op.id, end.op.conn)
    ensures
      var n, before := Run(evs).serials[end.op.id], After(Next(Run(evs), end), between);
      && n < |Run(evs).accepted| && n < |before.persisted|
      && Next(before, persist).persisted == before.persisted[n := before.persisted[n] + [Run(evs).accepted[n]]]
  {
    AlwaysFollows(evs);
    var s, conn := Run(evs), end.op.conn;
    assert Matches(PhaseOf(s, conn), PlaceOf(StoryOf(evs), conn)) && BufferMatches(s, StoryOf(evs), end.op.id);
    assert EntryOk(s, end.op.id);
    StillPersisting(Next(s, end), between, conn);
  }

  /**
   * Exactly when a begin is accepted: from a free connection, with a bug report of at most
   * 10 MiB or a client's upload of at most 25 MiB, fewer than eight uploads live and none under
   * its id.
   */
  lemma BegunExactly(evs: seq<Event<Move>>, e: Event<Move>)
    requires e.op.Begin?
    ensures
      var s, live := Run(evs), Uploads.Gc(Run(evs).uploads, e.at);
      |Next(s, e).accepted| > |s.accepted| <==>
        && PlaceOf(StoryOf(evs), e.op.conn) == Free
        && (if e.op.bugReport then e.op.size <= 10_485_760 else !e.op.asDesktop && e.op.size <= 26_214_400)
        && |live| < 8 && e.op.id !in live
  {
    AlwaysFollows(evs);
    assert Matches(PhaseOf(Run(evs), e.op.conn), PlaceOf(StoryOf(evs), e.op.conn));
    BegunByTable(Run(evs), e);
    TableBegins(Uploads.Gc(Run(evs).uploads, e.at), e.op.id, e.op.size, e.op.conn, e.stamp);
  }

  lemma BegunByTable(s: State, e: Event<Move>)
    requires e.op.Begin?
    ensures |Next(s, e).accepted| > |s.accepted| <==>
      && PhaseOf(s, e.op.conn).Idle? && Admitted(e.op.bugReport, e.op.size, e.op.asDesktop)
      && Call(s, e, Uploads.Begin(e.op.id, e.op.size, e.op.conn)).1 == Uploads.Begun(Ok(()))
  {
  }

  lemma TableBegins(table: Uploads.Table, id: string, size: nat, conn: Conn, stamp: Instant)
    ensures Uploads.Act(table, Uploads.Begin(id, size, conn), stamp).1 == Uploads.Begun(Ok(()))
       <==> size <= 26_214_400 && |table| < 8 && id !in table
  {
  }
}
