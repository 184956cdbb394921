/**
 * The handlers of `replay_begin`, scrollback frames and `session_list` (src/server.rs).
 *
 * A scrollback frame or a session list is handled in two steps: a broker call looks up the
 * replay target (and for a list clears it), and then the frame or list is sent to that target,
 * or broadcast by a second call if there is none.  Calls of other connections may fall between
 * the two, and a desktop that was replaced still runs its handlers.  A move is one broker call
 * or one send; a move that its connection cannot make now leaves the state alone.
 */
module ReplayHandlers {
  import opened Common
  import Presence

  /** What a handler passes on. */
  datatype Cargo = Frame(data: Bytes) | List(text: string)

  function PayloadOf(cargo: Cargo): Presence.Payload {
    match cargo
    case Frame(data) => Presence.Scrollback(data)
    case List(text) => Presence.SessionList(text)
  }

  /** What a handler is about to send, and to whom: to the target it found, or to every client. */
  datatype Held = Held(route: Option<Conn>, cargo: Cargo)

  /** The connections of the account, and what handlers hold between their two steps. */
  datatype State = State(presence: Presence.State, pending: map<Conn, Held>)

  const Initial := State(Presence.Empty, map[])

  datatype Move =
    | Other(op: Presence.Op)
    | LookUp(conn: Conn, data: Bytes)
    | Close(conn: Conn, text: string)
    | Send(conn: Conn)

  /** Replay traffic is what a burst consists of. */
  predicate IsReplay(payload: Presence.Payload) {
    !payload.Control?
  }

  /** The broker calls that do not belong to the two handlers. */
  predicate Foreign(op: Presence.Op) {
    !op.RouteScrollback? && !op.EndReplay? && !(op.Broadcast? && IsReplay(op.payload))
  }

  predicate Enabled(s: State, move: Move) {
    match move
    case Other(op) => Foreign(op)
    case LookUp(conn, _) => conn !in s.pending
    case Close(conn, _) => conn !in s.pending
    case Send(conn) => conn in s.pending
  }

  /** The broker call a move makes; a send to a target that was looked up makes none. */
  function CallOf(s: State, move: Move): Option<Presence.Op>
    requires Enabled(s, move)
  {
    match move
    case Other(op) => Some(op)
    case LookUp(_, data) => Some(Presence.RouteScrollback(data))
    case Close(_, text) => Some(Presence.EndReplay(text))
    case Send(conn) => if s.pending[conn].route.Some? then None else Some(Presence.Broadcast(PayloadOf(s.pending[conn].cargo)))
  }

  /** What a lookup leaves its handler with: the connection of the target, if there is one. */
  function Found(s: State, cargo: Cargo): Held {
    Held(if s.presence.target.Some? then Some(s.presence.target.value.conn) else None, cargo)
  }

  function PendingAfter(s: State, move: Move): map<Conn, Held> {
    match move
    case Other(_) => s.pending
    case LookUp(conn, data) => s.pending[conn := Found(s, Frame(data))]
    case Close(conn, text) => s.pending[conn := Found(s, List(text))]
    case Send(conn) => s.pending - {conn}
  }

  function Act(s: State, move: Move): State
    requires Enabled(s, move)
  {
    var call := CallOf(s, move);
    State(if call.Some? then Presence.Next(s.presence, call.value) else s.presence, PendingAfter(s, move))
  }

  function Next(s: State, move: Move): State {
    if Enabled(s, move) then Act(s, move) else s
  }

  /** The messages a move addresses; a lookup by itself addresses none. */
  function Sent(s: State, move: Move): seq<Presence.Addressed> {
    if !Enabled(s, move) || move.LookUp? || move.Close? then []
    else if move.Send? && s.pending[move.conn].route.Some? then
      [Presence.Addressed(s.pending[move.conn].route.value, Presence.Relayed(PayloadOf(s.pending[move.conn].cargo)))]
    else Presence.Sent(s.presence, CallOf(s, move).value)
  }

  function After(s: State, moves: seq<Move>): State {
    if moves == [] then s else Next(After(s, Front(moves)), Last(moves))
  }

  // ---------------------------------------------------------------- the handlers, from the history

  /** What a handler holds: what it looked up last, until it sends it. */
  function HeldBy(moves: seq<Move>, conn: Conn): Option<Held>
    decreases |moves|, 0
  {
    if moves == [] then None
    else
      var past, move := Front(moves), Last(moves);
      var held := HeldBy(past, conn);
      if move == Send(conn) then None
      else if held.None? && move.LookUp? && move.conn == conn then Some(Held(TargetOf(past), Frame(move.data)))
      else if held.None? && move.Close? && move.conn == conn then Some(Held(TargetOf(past), List(move.text)))
      else held
  }

  /** The connection of the replay target, by the broker calls made so far. */
  function TargetOf(moves: seq<Move>): Option<Conn>
    decreases |moves|, 2
  {
    var target := Presence.Target(CallsOf(moves));
    if target.Some? then Some(target.value.conn) else None
  }

  /** The broker calls of a run: lookups by handlers that hold nothing, and broadcasts of what found no target. */
  function CallsOf(moves: seq<Move>): seq<Presence.Op>
    decreases |moves|, 1
  {
    if moves == [] then []
    else
      var past, calls := Front(moves), CallsOf(Front(moves));
      match Last(moves)
      case Other(op) => if Foreign(op) then calls + [op] else calls
      case LookUp(conn, data) => if HeldBy(past, conn).None? then calls + [Presence.RouteScrollback(data)] else calls
      case Close(conn, text) => if HeldBy(past, conn).None? then calls + [Presence.EndReplay(text)] else calls
      case Send(conn) =>
        var held := HeldBy(past, conn);
        if held.Some? && held.value.route.None? then calls + [Presence.Broadcast(PayloadOf(held.value.cargo))] else calls
  }

  /** A handler holds what the history says. */
  predicate Holds(s: State, moves: seq<Move>, conn: Conn) {
    if conn in s.pending then HeldBy(moves, conn) == Some(s.pending[conn]) else HeldBy(moves, conn).None?
  }

  lemma CallExtends(calls: seq<Presence.Op>, op: Presence.Op)
    ensures Presence.Run(calls + [op]) == Presence.Next(Presence.Run(calls), op)
  {
    assert Front(calls + [op]) == calls;
  }

  lemma PresenceFollows(moves: seq<Move>)
    requires moves != []
    requires After(Initial, Front(moves)).presence == Presence.Run(CallsOf(Front(moves)))
    requires Last(moves).Other? || Holds(After(Initial, Front(moves)), Front(moves), Last(moves).conn)
    ensures After(Initial, moves).presence == Presence.Run(CallsOf(moves))
  {
    var s, move := After(Initial, Front(moves)), Last(moves);
    if Enabled(s, move) && CallOf(s, move).Some? {
      CallExtends(CallsOf(Front(moves)), CallOf(s, move).value);
    }
  }

  lemma HoldsFollows(moves: seq<Move>, conn: Conn)
    requires moves != [] && Holds(After(Initial, Front(moves)), Front(moves), conn)
    requires After(Initial, Front(moves)).presence == Presence.Run(CallsOf(Front(moves)))
    ensures Holds(After(Initial, moves), moves, conn)
  {
    Presence.TargetExactly(CallsOf(Front(moves)));
  }

  /**
   * On every run the connections are the presence run of the handlers' broker calls, and every
   * handler holds exactly what it looked up last and has not sent: each lookup is sent once.
   */
  lemma {:induction false} HandlersExactly(moves: seq<Move>, conn: Conn)
    ensures After(Initial, moves).presence == Presence.Run(CallsOf(moves))
    ensures conn in After(Initial, moves).pending <==> HeldBy(moves, conn).Some?
    ensures conn in After(Initial, moves).pending ==> HeldBy(moves, conn) == Some(After(Initial, moves).pending[conn])
  {
    if moves != [] {
      HandlersExactly(Front(moves), conn);
      HoldsFollows(moves, conn);
      if !Last(moves).Other? {
        HandlersExactly(Front(moves), Last(moves).conn);
      }
      PresenceFollows(moves);
    }
  }

  // ---------------------------------------------------------------- bursts

  /** Moves that leave a burst open: everything but its end, another begin, or a slot change. */
  predicate Leaves(s: State, move: Move) {
    Enabled(s, move) && CallOf(s, move).Some? ==> Presence.LeavesBurst(s.presence, CallOf(s, move).value)
  }

  predicate InBurst(s: State, moves: seq<Move>) {
    moves == [] || (InBurst(s, Front(moves)) && Leaves(After(s, Front(moves)), Last(moves)))
  }

  /** All the replay traffic among some messages is for one connection. */
  ghost predicate ReplayOnlyTo(sent: seq<Presence.Addressed>, conn: Conn) {
    forall i :: 0 <= i < |sent| && sent[i].msg.Relayed? && IsReplay(sent[i].msg.payload) ==> sent[i].conn == conn
  }

  /**
   * However the run goes on, as long as the burst is open and up to the move that closes it,
   * all replay traffic is addressed to the requester and to no one else.
   */
  ghost predicate Exclusive(s: State, requester: Presence.Peer) {
    forall moves, move :: InBurst(s, moves) ==> ReplayOnlyTo(Sent(After(s, moves), move), requester.conn)
  }

  /** Everything handlers hold is for one connection. */
  predicate AllFor(pending: map<Conn, Held>, conn: Conn) {
    forall c :: c in pending ==> pending[c].route == Some(conn)
  }

  /** The burst so far: the target is in place, and nothing is held for anyone else. */
  predicate Clean(s: State, requester: Presence.Peer) {
    s.presence.target == Some(requester) && AllFor(s.pending, requester.conn)
  }

  lemma LeavingKeepsClean(s: State, move: Move, requester: Presence.Peer)
    requires Clean(s, requester) && Leaves(s, move)
    ensures Clean(Next(s, move), requester)
  {
  }

  lemma {:induction false} BurstStaysClean(s: State, moves: seq<Move>, requester: Presence.Peer)
    requires Clean(s, requester) && InBurst(s, moves)
    ensures Clean(After(s, moves), requester)
  {
    if moves != [] {
      BurstStaysClean(s, Front(moves), requester);
      LeavingKeepsClean(After(s, Front(moves)), Last(moves), requester);
    }
  }

  /** Calls outside the two handlers send no replay traffic. */
  lemma ForeignSendsNoReplay(s: Presence.State, op: Presence.Op, conn: Conn)
    requires Foreign(op)
    ensures ReplayOnlyTo(Presence.Sent(s, op), conn)
  {
    match op
    case RegisterDesktop(_, caps) => Presence.FanoutIsUniform(s.clients, Presence.Status(true, caps));
    case UnregisterDesktop(_) => Presence.FanoutIsUniform(s.clients, Presence.Status(false, None));
    case Broadcast(payload) => Presence.FanoutIsUniform(s.clients, Presence.Relayed(payload));
    case _ =>
  }

  lemma CleanSendsToRequester(s: State, move: Move, requester: Presence.Peer)
    requires Clean(s, requester)
    ensures ReplayOnlyTo(Sent(s, move), requester.conn)
  {
    if move.Other? && Foreign(move.op) {
      ForeignSendsNoReplay(s.presence, move.op, requester.conn);
    }
  }

  /** A fallback reaches every client, so also one that is not the requester. */
  lemma FallBackReaches(s: State, conn: Conn, other: nat, requester: Presence.Peer)
    requires conn in s.pending && s.pending[conn].route.None?
    requires other < |s.presence.clients| && s.presence.clients[other].conn != requester.conn
    ensures !ReplayOnlyTo(Sent(s, Send(conn)), requester.conn)
  {
    var msg := Presence.Relayed(PayloadOf(s.pending[conn].cargo));
    Presence.FanoutIsUniform(s.presence.clients, msg);
    assert Sent(s, Send(conn))[other] == Presence.Addressed(s.presence.clients[other].conn, msg);
  }

  lemma AlikeIsShort(clients: seq<Presence.Peer>, conn: Conn)
    requires forall i :: 0 <= i < |clients| ==> clients[i].conn == conn
    ensures Presence.Distinct(clients) ==> |clients| <= 1
  {
    if |clients| > 1 {
      assert clients[0].conn == clients[1].conn;
    }
  }

  /** A client that joins during a burst, when the requester is the only one, if that. */
  lemma StrangerJoins(s: State, requester: Presence.Peer)
    requires Presence.Distinct(s.presence.clients)
    requires forall i :: 0 <= i < |s.presence.clients| ==> s.presence.clients[i].conn == requester.conn
    ensures
      var stranger := Presence.Peer("", requester.conn + 1);
      var t := Next(s, Other(Presence.RegisterClient(stranger.conn, stranger.device)));
      t == s.(presence := s.presence.(clients := s.presence.clients + [stranger]))
  {
    AlikeIsShort(s.presence.clients, requester.conn);
    assert requester.conn + 1 !in Presence.Conns(s.presence.clients);
  }

  /** A send that was looked up for someone else goes there. */
  lemma LateSendBreaks(s: State, conn: Conn, requester: Presence.Peer)
    requires conn in s.pending && s.pending[conn].route.Some? && s.pending[conn].route.value != requester.conn
    ensures !Exclusive(s, requester)
  {
    assert After(s, []) == s && InBurst(s, []);
    var sent := Sent(s, Send(conn));
    assert sent[0].conn != requester.conn && sent[0].msg.Relayed? && IsReplay(sent[0].msg.payload);
  }

  lemma FallBackBreaks(s: State, conn: Conn, requester: Presence.Peer)
    requires Presence.Distinct(s.presence.clients) && conn in s.pending && s.pending[conn].route.None?
    ensures !Exclusive(s, requester)
  {
    if other: nat :| other < |s.presence.clients| && s.presence.clients[other].conn != requester.conn {
      FallBackReaches(s, conn, other, requester);
      assert After(s, []) == s && InBurst(s, []);
    } else {
      StrangerJoins(s, requester);
      var join := Other(Presence.RegisterClient(requester.conn + 1, ""));
      assert Front([join]) == [] && After(s, []) == s && InBurst(s, []);
      assert Leaves(s, join) && After(s, [join]) == Next(s, join);
      assert InBurst(s, [join]);
      FallBackReaches(Next(s, join), conn, |s.presence.clients|, requester);
    }
  }

  /**
   * Once a requester has been selected, its burst is exclusive on every continuation if and
   * only if no handler held a fallback broadcast, or a send to anyone else, at that moment.
   */
  lemma ExclusiveExactly(s: State, requester: Presence.Peer)
    requires Presence.Distinct(s.presence.clients) && s.presence.target == Some(requester)
    ensures Exclusive(s, requester) <==> AllFor(s.pending, requester.conn)
  {
    if AllFor(s.pending, requester.conn) {
      forall moves, move | InBurst(s, moves) ensures ReplayOnlyTo(Sent(After(s, moves), move), requester.conn) {
        BurstStaysClean(s, moves, requester);
        CleanSendsToRequester(After(s, moves), move, requester);
      }
    } else {
      var conn :| conn in s.pending && s.pending[conn].route != Some(requester.conn);
      if s.pending[conn].route.Some? {
        LateSendBreaks(s, conn, requester);
      } else {
        FallBackBreaks(s, conn, requester);
      }
    }
  }

  // ---------------------------------------------------------------- runs

  lemma {:induction false} AlwaysBounded(moves: seq<Move>)
    ensures Presence.Bounded(After(Initial, moves).presence)
  {
    if moves != [] {
      AlwaysBounded(Front(moves));
      var s := After(Initial, Front(moves));
      if Enabled(s, Last(moves)) && CallOf(s, Last(moves)).Some? {
        Presence.NextKeepsBounds(s.presence, CallOf(s, Last(moves)).value);
      }
    }
  }

  /**
   * On every run that ends in a `replay_begin` selecting a requester: the requester was the head
   * of the queue, and until the burst is closed every scrollback frame and every list is
   * addressed to it and to no one else, whatever joins, disconnects, revocations, requests,
   * stale desktop disconnects and handler steps follow, if and only if everything that handlers
   * held at the begin was for it.
   */
  lemma BurstExclusive(moves: seq<Move>, requester: Presence.Peer)
    requires moves != [] && Last(moves) == Other(Presence.BeginReplay)
    requires After(Initial, moves).presence.target == Some(requester)
    ensures
      var queue := After(Initial, Front(moves)).presence.queue;
      queue != [] && queue[0] == requester
    ensures Exclusive(After(Initial, moves), requester) <==> AllFor(After(Initial, moves).pending, requester.conn)
  {
    AlwaysBounded(moves);
    ExclusiveExactly(After(Initial, moves), requester);
  }

  /** No move among these is the send of a given handler. */
  predicate Without(moves: seq<Move>, conn: Conn) {
    forall i :: 0 <= i < |moves| ==> moves[i] != Send(conn)
  }

  lemma {:induction false} HeldStays(s: State, moves: seq<Move>, conn: Conn)
    requires conn in s.pending && Without(moves, conn)
    ensures conn in After(s, moves).pending && After(s, moves).pending[conn] == s.pending[conn]
  {
    if moves != [] {
      HeldStays(s, Front(moves), conn);
    }
  }

  /**
   * A frame or the closing list that is looked up in a burst reaches the requester, and it
   * alone, whatever other connections do before it is sent: even after the burst was closed, or
   * another one begun.
   */
  lemma BurstReaches(s: State, requester: Presence.Peer, move: Move, moves: seq<Move>)
    requires s.presence.target == Some(requester) && Enabled(s, move) && (move.LookUp? || move.Close?)
    requires Without(moves, move.conn)
    ensures
      var payload := if move.LookUp? then Presence.Scrollback(move.data) else Presence.SessionList(move.text);
      Sent(After(Next(s, move), moves), Send(move.conn)) == [Presence.Addressed(requester.conn, Presence.Relayed(payload))]
    ensures Next(s, move).presence.target == if move.LookUp? then Some(requester) else None
  {
    HeldStays(Next(s, move), moves, move.conn);
  }

  // ---------------------------------------------------------------- bursts that are not exclusive

  lemma AfterStep(s: State, moves: seq<Move>, move: Move)
    ensures After(s, moves + [move]) == Next(After(s, moves), move)
  {
    assert Front(moves + [move]) == moves;
  }

  /** A desktop and two clients connect. */
  function Gather(desktop: Conn, p: Presence.Peer, q: Presence.Peer): seq<Move> {
    [Other(Presence.RegisterDesktop(desktop, None))] + [Other(Presence.RegisterClient(p.conn, p.device))]
    + [Other(Presence.RegisterClient(q.conn, q.device))]
  }

  lemma Gathered(desktop: Conn, p: Presence.Peer, q: Presence.Peer)
    requires p.conn != q.conn
    ensures After(Initial, Gather(desktop, p, q)) == State(Presence.State(Some(desktop), None, [p, q], [], None), map[])
  {
    var m1, m2 := Other(Presence.RegisterDesktop(desktop, None)), Other(Presence.RegisterClient(p.conn, p.device));
    var m3 := Other(Presence.RegisterClient(q.conn, q.device));
    assert After(Initial, [m1]) == Next(Initial, m1) by {
      assert Front([m1]) == [];
    }
    AfterStep(Initial, [m1], m2);
    AfterStep(Initial, [m1] + [m2], m3);
    Joins(Next(Initial, m1), p, q);
  }

  lemma Joins(s: State, p: Presence.Peer, q: Presence.Peer)
    requires s.presence.clients == [] && p.conn != q.conn
    ensures Next(Next(s, Other(Presence.RegisterClient(p.conn, p.device))), Other(Presence.RegisterClient(q.conn, q.device)))
         == s.(presence := s.presence.(clients := [p, q]))
  {
    var t := Next(s, Other(Presence.RegisterClient(p.conn, p.device)));
    assert t.presence.clients == [p];
    assert q.conn !in Presence.Conns(t.presence.clients);
  }

  /** A desktop takes the slot and begins the burst that a client asked for. */
  function TakeOver(desktop: Conn, p: Presence.Peer): seq<Move> {
    [Other(Presence.RegisterDesktop(desktop, None))] + [Other(Presence.NoteListRequest(p.device, p.conn))]
    + [Other(Presence.BeginReplay)]
  }

  lemma TakenOver(s: State, moves: seq<Move>, desktop: Conn, p: Presence.Peer)
    ensures
      var t := After(s, moves + TakeOver(desktop, p));
      && t.presence.target == Some(p) && t.pending == After(s, moves).pending
      && t.presence.clients == After(s, moves).presence.clients
  {
    var m1, m2 := Other(Presence.RegisterDesktop(desktop, None)), Other(Presence.NoteListRequest(p.device, p.conn));
    AfterStep(s, moves, m1);
    AfterStep(s, moves + [m1], m2);
    AfterStep(s, moves + [m1] + [m2], Other(Presence.BeginReplay));
    assert moves + TakeOver(desktop, p) == moves + [m1] + [m2] + [Other(Presence.BeginReplay)];
  }

  /**
   * Runs on which a burst is not exclusive: a desktop looks up a frame and finds no target, is
   * replaced, the new desktop begins the burst of one client, and the old one's broadcast of its
   * frame then reaches the other client.
   */
  lemma EvictedDesktopIntrudes(evicted: Conn, current: Conn, p: Presence.Peer, q: Presence.Peer, data: Bytes)
    requires p.conn != q.conn
    ensures
      var s := After(Initial, Gather(evicted, p, q) + [LookUp(evicted, data)] + TakeOver(current, p));
      && s.presence.target == Some(p)
      && Presence.Addressed(q.conn, Presence.Relayed(Presence.Scrollback(data))) in Sent(s, Send(evicted))
  {
    Gathered(evicted, p, q);
    AfterStep(Initial, Gather(evicted, p, q), LookUp(evicted, data));
    var moves := Gather(evicted, p, q) + [LookUp(evicted, data)];
    TakenOver(Initial, moves, current, p);
    var s := After(Initial, moves + TakeOver(current, p));
    assert s.presence.clients == [p, q] && s.pending == map[evicted := Held(None, Frame(data))];
    FallBackToSecond(s, evicted, p, q, data);
  }

  lemma FallBackToSecond(s: State, conn: Conn, p: Presence.Peer, q: Presence.Peer, data: Bytes)
    requires s.presence.clients == [p, q] && conn in s.pending && s.pending[conn] == Held(None, Frame(data))
    ensures Presence.Addressed(q.conn, Presence.Relayed(Presence.Scrollback(data))) in Sent(s, Send(conn))
  {
    var msg := Presence.Relayed(Presence.Scrollback(data));
    Presence.FanoutIsUniform([p, q], msg);
    assert Sent(s, Send(conn))[1] == Presence.Addressed(q.conn, msg);
  }

  /**
   * Others: a desktop looks up a frame in the burst of one client and is replaced, the new
   * desktop begins the burst of the other, and the frame then goes to the first one.
   */
  lemma LateSendIntrudes(evicted: Conn, current: Conn, p: Presence.Peer, q: Presence.Peer, data: Bytes)
    requires p.conn != q.conn
    ensures
      var moves := Gather(evicted, p, q) + TakeOver(evicted, p) + [LookUp(evicted, data)] + TakeOver(current, q);
      var s := After(Initial, moves);
      && s.presence.target == Some(q)
      && Sent(s, Send(evicted)) == [Presence.Addressed(p.conn, Presence.Relayed(Presence.Scrollback(data)))]
  {
    Gathered(evicted, p, q);
    TakenOver(Initial, Gather(evicted, p, q), evicted, p);
    var first := Gather(evicted, p, q) + TakeOver(evicted, p);
    AfterStep(Initial, first, LookUp(evicted, data));
    TakenOver(Initial, first + [LookUp(evicted, data)], current, q);
  }
}
