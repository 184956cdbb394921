/**
 * Who is connected to one account, and replay routing (src/broker.rs).
 *
 * A step returns the messages it addresses, in order.  The send that a handler makes to the
 * connection returned by `end_replay` or `replay_target` is part of that step, because the
 * addressee is fixed there; when there is none, the handler's broadcast is a later step, and what
 * may fall between the two is the subject of `ReplayHandlers`.
 */
module Presence {
  import opened Common

  const MAX_CLIENTS: nat := 10
  const MAX_REPLAY_QUEUE: nat := 64

  type Caps = Option<seq<string>>

  /** A client connection, or a queued replay request. */
  datatype Peer = Peer(device: string, conn: Conn)

  datatype State = State(desktop: Option<Conn>, caps: Caps, clients: seq<Peer>, queue: seq<Peer>, target: Option<Peer>)

  const Empty := State(None, None, [], [], None)

  /** What a desktop has the relay pass on to clients. */
  datatype Payload = Scrollback(data: Bytes) | SessionList(text: string) | Control(text: string)

  datatype Message = Status(online: bool, caps: Caps) | CloseSocket | Relayed(payload: Payload)

  datatype Addressed = Addressed(conn: Conn, msg: Message)

  datatype Op =
    | RegisterDesktop(conn: Conn, caps: Caps)
    | UnregisterDesktop(conn: Conn)
    | RegisterClient(conn: Conn, device: string)
    | UnregisterClient(conn: Conn)
    | UnregisterDevice(device: string)
    | NoteListRequest(device: string, conn: Conn)
    | BeginReplay
    | EndReplay(text: string)
    | RouteScrollback(data: Bytes)
    | Broadcast(payload: Payload)

  datatype Outcome = Done | TooManyClients | Routed(route: Option<Conn>)

  // ---------------------------------------------------------------- the client vector

  function Conns(peers: seq<Peer>): set<Conn> {
    set p <- peers :: p.conn
  }

  predicate Distinct(peers: seq<Peer>) {
    forall i, j :: 0 <= i < j < |peers| ==> peers[i].conn != peers[j].conn
  }

  /** What a `retain` is aimed at: one connection, or every connection of a device. */
  datatype Key = ByConn(conn: Conn) | ByDevice(device: string)

  predicate Hits(p: Peer, key: Key) {
    match key
    case ByConn(conn) => p.conn == conn
    case ByDevice(device) => p.device == device
  }

  /** `retain`: the peers a key does not hit, in order. */
  function Without(peers: seq<Peer>, key: Key): seq<Peer> {
    if peers == [] then []
    else if Hits(Last(peers), key) then Without(Front(peers), key)
    else Without(Front(peers), key) + [Last(peers)]
  }

  /** Re-registration of a connection updates the first matching entry in place. */
  function Rejoin(peers: seq<Peer>, peer: Peer): seq<Peer> {
    if peers == [] then []
    else if peers[0].conn == peer.conn then [peer] + peers[1..]
    else [peers[0]] + Rejoin(peers[1..], peer)
  }

  /** One copy of a message for every client, in registration order. */
  function Fanout(clients: seq<Peer>, msg: Message): seq<Addressed> {
    if clients == [] then [] else Fanout(Front(clients), msg) + [Addressed(Last(clients).conn, msg)]
  }

  // ---------------------------------------------------------------- steps

  /** Only a disconnect of a desktop that has been replaced is ignored. */
  predicate Stale(s: State, conn: Conn) {
    s.desktop.Some? && s.desktop.value != conn
  }

  /** `replay_desktop_status`: a joining client hears of the desktop that is online. */
  function Greeting(s: State, conn: Conn): seq<Addressed> {
    if s.desktop.Some? then [Addressed(conn, Status(true, s.caps))] else []
  }

  function Next(s: State, op: Op): State {
    match op
    case RegisterDesktop(conn, caps) => State(Some(conn), caps, s.clients, [], None)
    case UnregisterDesktop(conn) => if Stale(s, conn) then s else State(None, None, s.clients, [], None)
    case RegisterClient(conn, device) =>
      if conn in Conns(s.clients) then s.(clients := Rejoin(s.clients, Peer(device, conn)))
      else if |s.clients| >= MAX_CLIENTS then s
      else s.(clients := s.clients + [Peer(device, conn)])
    case UnregisterClient(conn) =>
      s.(clients := Without(s.clients, ByConn(conn)), queue := Without(s.queue, ByConn(conn)))
    case UnregisterDevice(device) =>
      s.(clients := Without(s.clients, ByDevice(device)), queue := Without(s.queue, ByDevice(device)))
    case NoteListRequest(device, conn) =>
      if |s.queue| < MAX_REPLAY_QUEUE then s.(queue := s.queue + [Peer(device, conn)]) else s
    case BeginReplay =>
      if s.queue == [] then s.(target := None) else s.(queue := s.queue[1..], target := Some(s.queue[0]))
    case EndReplay(_) => s.(target := None)
    case RouteScrollback(_) => s
    case Broadcast(_) => s
  }

  function Sent(s: State, op: Op): seq<Addressed> {
    match op
    case RegisterDesktop(conn, caps) =>
      (if s.desktop.Some? then [Addressed(s.desktop.value, CloseSocket)] else []) + Fanout(s.clients, Status(true, caps))
    case UnregisterDesktop(conn) => if Stale(s, conn) then [] else Fanout(s.clients, Status(false, None))
    case RegisterClient(conn, _) => if Returned(s, op) == TooManyClients then [] else Greeting(s, conn)
    case EndReplay(text) => if s.target.Some? then [Addressed(s.target.value.conn, Relayed(SessionList(text)))] else []
    case RouteScrollback(data) => if s.target.Some? then [Addressed(s.target.value.conn, Relayed(Scrollback(data)))] else []
    case Broadcast(payload) => Fanout(s.clients, Relayed(payload))
    case _ => []
  }

  function Returned(s: State, op: Op): Outcome {
    match op
    case RegisterClient(conn, _) =>
      if conn !in Conns(s.clients) && |s.clients| >= MAX_CLIENTS then TooManyClients else Done
    case EndReplay(_) => Routed(if s.target.Some? then Some(s.target.value.conn) else None)
    case RouteScrollback(_) => Routed(if s.target.Some? then Some(s.target.value.conn) else None)
    case _ => Done
  }

  function Run(ops: seq<Op>): State {
    if ops == [] then Empty else Next(Run(Front(ops)), Last(ops))
  }

  // ---------------------------------------------------------------- bounds and single delivery

  lemma {:induction false} WithoutShrinks(peers: seq<Peer>, key: Key)
    ensures |Without(peers, key)| <= |peers|
    ensures forall p :: p in Without(peers, key) <==> p in peers && !Hits(p, key)
    ensures Distinct(peers) ==> Distinct(Without(peers, key))
  {
    if peers != [] {
      WithoutShrinks(Front(peers), key);
      assert peers == Front(peers) + [Last(peers)];
      var rest := Without(Front(peers), key);
      assert forall i :: 0 <= i < |rest| ==> rest[i] in Front(peers);
    }
  }

  lemma {:induction false} WithoutAppend(a: seq<Peer>, b: seq<Peer>, key: Key)
    ensures Without(a + b, key) == Without(a, key) + Without(b, key)
  {
    if b == [] {
      assert a + b == a;
    } else {
      WithoutAppend(a, Front(b), key);
      assert Front(a + b) == a + Front(b);
    }
  }

  lemma {:induction false} RejoinKeepsConns(peers: seq<Peer>, peer: Peer)
    ensures |Rejoin(peers, peer)| == |peers|
    ensures forall i :: 0 <= i < |peers| ==> Rejoin(peers, peer)[i].conn == peers[i].conn
  {
    if peers != [] {
      RejoinKeepsConns(peers[1..], peer);
    }
  }

  predicate Bounded(s: State) {
    && |s.clients| <= 10
    && |s.queue| <= 64
    && Distinct(s.clients)
    && (s.desktop.None? ==> s.caps.None?)
  }

  lemma NextKeepsBounds(s: State, op: Op)
    requires Bounded(s)
    ensures Bounded(Next(s, op))
  {
    match op
    case RegisterClient(conn, device) => RejoinKeepsConns(s.clients, Peer(device, conn));
    case UnregisterClient(conn) => WithoutShrinks(s.clients, ByConn(conn)); WithoutShrinks(s.queue, ByConn(conn));
    case UnregisterDevice(device) => WithoutShrinks(s.clients, ByDevice(device)); WithoutShrinks(s.queue, ByDevice(device));
    case _ =>
  }

  /** At most 10 clients, pairwise distinct as connections, and at most 64 queued replays. */
  lemma {:induction false} ReachableBounds(ops: seq<Op>)
    ensures Bounded(Run(ops))
  {
    if ops != [] {
      ReachableBounds(Front(ops));
      NextKeepsBounds(Run(Front(ops)), Last(ops));
    }
  }

  /** How many messages a step addresses to a connection. */
  function Copies(sent: seq<Addressed>, conn: Conn): nat {
    if sent == [] then 0 else Copies(Front(sent), conn) + (if Last(sent).conn == conn then 1 else 0)
  }

  lemma {:induction false} FanoutOnce(clients: seq<Peer>, msg: Message, conn: Conn)
    requires Distinct(clients)
    ensures Copies(Fanout(clients, msg), conn) == if conn in Conns(clients) then 1 else 0
  {
    if clients != [] {
      FanoutOnce(Front(clients), msg, conn);
      assert clients == Front(clients) + [Last(clients)];
      var copies := Fanout(Front(clients), msg) + [Addressed(Last(clients).conn, msg)];
      assert Front(copies) == Fanout(Front(clients), msg);
      if conn == Last(clients).conn {
        assert Last(clients) in clients;
        assert conn !in Conns(Front(clients));
      } else if conn in Conns(clients) {
        var p :| p in clients && p.conn == conn;
        assert p in Front(clients);
      }
    }
  }

  lemma BroadcastOnce(s: State, payload: Payload, conn: Conn)
    requires Bounded(s)
    ensures Copies(Sent(s, Broadcast(payload)), conn) == if conn in Conns(s.clients) then 1 else 0
  {
    FanoutOnce(s.clients, Relayed(payload), conn);
  }

  /** In every reachable state a broadcast addresses one copy to each client and none elsewhere. */
  lemma {:induction false} SingleDelivery(ops: seq<Op>, payload: Payload, conn: Conn)
    ensures Copies(Sent(Run(ops), Broadcast(payload)), conn) == if conn in Conns(Run(ops).clients) then 1 else 0
  {
    ReachableBounds(ops);
    BroadcastOnce(Run(ops), payload, conn);
  }

  // ---------------------------------------------------------------- who is registered

  /**
   * The device a connection is registered under, read off the history: that of its latest
   * accepted registration, until the connection or that device is unregistered.
   */
  function RegisteredAs(ops: seq<Op>, conn: Conn): Option<string> {
    if ops == [] then None
    else
      var past, op := RegisteredAs(Front(ops), conn), Last(ops);
      if op.RegisterClient? && op.conn == conn && Returned(Run(Front(ops)), op) == Done then Some(op.device)
      else if op == UnregisterClient(conn) then None
      else if op.UnregisterDevice? && past == Some(op.device) then None
      else past
  }

  lemma {:induction false} RejoinMembers(peers: seq<Peer>, peer: Peer, p: Peer)
    requires Distinct(peers) && peer.conn in Conns(peers)
    ensures p in Rejoin(peers, peer) <==> p == peer || (p in peers && p.conn != peer.conn)
  {
    assert peers == [peers[0]] + peers[1..];
    if peers[0].conn == peer.conn {
      assert forall q :: q in peers[1..] ==> q.conn != peer.conn;
    } else {
      var q :| q in peers && q.conn == peer.conn;
      assert q in peers[1..];
      RejoinMembers(peers[1..], peer, p);
    }
  }

  lemma JoinMembers(s: State, conn: Conn, device: string, p: Peer)
    requires Bounded(s)
    ensures
      var op := RegisterClient(conn, device);
      p in Next(s, op).clients <==>
        if Returned(s, op) == Done && p.conn == conn then p.device == device else p in s.clients
  {
    if conn in Conns(s.clients) {
      RejoinMembers(s.clients, Peer(device, conn), p);
    } else {
      assert p.conn == conn ==> p !in s.clients;
    }
  }

  /**
   * In every reachable state the clients are exactly the connections with an accepted
   * registration since which neither they nor their device were unregistered, each under the
   * device it registered last.
   */
  lemma {:induction false} ClientsExactly(ops: seq<Op>, conn: Conn, device: string)
    ensures Peer(device, conn) in Run(ops).clients <==> RegisteredAs(ops, conn) == Some(device)
    ensures conn in Conns(Run(ops).clients) <==> RegisteredAs(ops, conn).Some?
  {
    OnRecord(ops, conn, device);
    if conn in Conns(Run(ops).clients) {
      var p :| p in Run(ops).clients && p.conn == conn;
      OnRecord(ops, conn, p.device);
    }
    if RegisteredAs(ops, conn).Some? {
      OnRecord(ops, conn, RegisteredAs(ops, conn).value);
    }
  }

  lemma {:induction false} OnRecord(ops: seq<Op>, conn: Conn, device: string)
    ensures Peer(device, conn) in Run(ops).clients <==> RegisteredAs(ops, conn) == Some(device)
  {
    if ops != [] {
      var s := Run(Front(ops));
      OnRecord(Front(ops), conn, device);
      ReachableBounds(Front(ops));
      match Last(ops)
      case RegisterClient(c, d) => JoinMembers(s, c, d, Peer(device, conn));
      case UnregisterClient(c) => WithoutShrinks(s.clients, ByConn(c));
      case UnregisterDevice(d) => WithoutShrinks(s.clients, ByDevice(d));
      case _ =>
    }
  }

  /** The connections that ever tried to register, and those registered now. */
  function Joining(ops: seq<Op>): set<Conn> {
    if ops == [] then {} else Joining(Front(ops)) + (if Last(ops).RegisterClient? then {Last(ops).conn} else {})
  }

  ghost function Registered(ops: seq<Op>): set<Conn> {
    set conn | conn in Joining(ops) && RegisteredAs(ops, conn).Some?
  }

  lemma {:induction false} RegisteredJoined(ops: seq<Op>, conn: Conn)
    requires RegisteredAs(ops, conn).Some?
    ensures conn in Joining(ops)
  {
    if RegisteredAs(Front(ops), conn).Some? {
      RegisteredJoined(Front(ops), conn);
    }
  }

  lemma {:induction false} DistinctCount(peers: seq<Peer>)
    requires Distinct(peers)
    ensures |Conns(peers)| == |peers|
  {
    if peers != [] {
      DistinctCount(Front(peers));
      assert peers == Front(peers) + [Last(peers)];
      assert Conns(peers) == Conns(Front(peers)) + {Last(peers).conn};
      assert forall p :: p in Front(peers) ==> p.conn != Last(peers).conn;
    }
  }

  /** A registration is refused if and only if ten other connections are registered and it is not. */
  lemma JoinAnswers(ops: seq<Op>, conn: Conn, device: string)
    ensures
      var full := RegisteredAs(ops, conn).None? && |Registered(ops)| >= 10;
      && (Returned(Run(ops), RegisterClient(conn, device)) == TooManyClients <==> full)
      && (Returned(Run(ops), RegisterClient(conn, device)) == Done <==> !full)
  {
    var clients := Run(ops).clients;
    forall c ensures c in Conns(clients) <==> c in Registered(ops) {
      ClientsExactly(ops, c, "");
      if RegisteredAs(ops, c).Some? {
        RegisteredJoined(ops, c);
      }
    }
    assert Conns(clients) == Registered(ops);
    ClientsExactly(ops, conn, device);
    ReachableBounds(ops);
    DistinctCount(clients);
  }

  /** When a connection last joined; registering again in place is not joining. */
  function JoinedAt(ops: seq<Op>, conn: Conn): nat {
    if ops == [] then 0
    else if Last(ops).RegisterClient? && Last(ops).conn == conn && RegisteredAs(Front(ops), conn).None? then |ops|
    else JoinedAt(Front(ops), conn)
  }

  lemma {:induction false} JoinedBefore(ops: seq<Op>, conn: Conn)
    ensures JoinedAt(ops, conn) <= |ops|
  {
    if ops != [] {
      JoinedBefore(Front(ops), conn);
    }
  }

  ghost predicate JoinOrder(ops: seq<Op>, peers: seq<Peer>) {
    forall i, j :: 0 <= i < j < |peers| ==> JoinedAt(ops, peers[i].conn) < JoinedAt(ops, peers[j].conn)
  }

  lemma {:induction false} WithoutKeepsOrder(ops: seq<Op>, peers: seq<Peer>, key: Key)
    requires JoinOrder(ops, peers)
    ensures JoinOrder(ops, Without(peers, key))
  {
    if peers != [] {
      WithoutKeepsOrder(ops, Front(peers), key);
      var rest := Without(Front(peers), key);
      WithoutShrinks(Front(peers), key);
      forall i | 0 <= i < |rest| ensures JoinedAt(ops, rest[i].conn) < JoinedAt(ops, Last(peers).conn) {
        assert rest[i] in Front(peers);
      }
    }
  }

  lemma JoinKeepsOrder(ops: seq<Op>, peers: seq<Peer>, peer: Peer)
    requires JoinOrder(ops, peers) && JoinedAt(ops, peer.conn) == |ops|
    requires forall i :: 0 <= i < |peers| ==> JoinedAt(ops, peers[i].conn) < |ops|
    ensures JoinOrder(ops, peers + [peer])
  {
  }

  /** Joining only moves the connection that joins. */
  lemma SameOrder(ops: seq<Op>, peers: seq<Peer>)
    requires ops != [] && JoinOrder(Front(ops), peers)
    requires forall i :: 0 <= i < |peers| ==> RegisteredAs(Front(ops), peers[i].conn).Some?
    ensures JoinOrder(ops, peers)
    ensures forall i :: 0 <= i < |peers| ==> JoinedAt(ops, peers[i].conn) < |ops|
  {
    forall i | 0 <= i < |peers| ensures JoinedAt(ops, peers[i].conn) == JoinedAt(Front(ops), peers[i].conn) < |ops| {
      JoinedBefore(Front(ops), peers[i].conn);
    }
  }

  /** Clients stand in the order in which they joined, so messages to all of them go out in that order. */
  lemma {:induction false} ClientsInJoinOrder(ops: seq<Op>)
    ensures JoinOrder(ops, Run(ops).clients)
  {
    if ops != [] {
      var s, op := Run(Front(ops)), Last(ops);
      ClientsInJoinOrder(Front(ops));
      forall i | 0 <= i < |s.clients| ensures RegisteredAs(Front(ops), s.clients[i].conn).Some? {
        ClientsExactly(Front(ops), s.clients[i].conn, s.clients[i].device);
      }
      SameOrder(ops, s.clients);
      match op
      case RegisterClient(conn, device) =>
        RejoinKeepsConns(s.clients, Peer(device, conn));
        if conn !in Conns(s.clients) {
          ClientsExactly(Front(ops), conn, device);
          JoinKeepsOrder(ops, s.clients, Peer(device, conn));
        }
      case UnregisterClient(conn) => WithoutKeepsOrder(ops, s.clients, ByConn(conn));
      case UnregisterDevice(device) => WithoutKeepsOrder(ops, s.clients, ByDevice(device));
      case _ =>
    }
  }

  // ---------------------------------------------------------------- desktop slot

  /** The connection of the latest desktop registration. */
  function LatestDesktop(ops: seq<Op>): Option<Conn> {
    if ops == [] then None
    else if Last(ops).RegisterDesktop? then Some(Last(ops).conn)
    else LatestDesktop(Front(ops))
  }

  /** That connection has unregistered since. */
  predicate LeftSince(ops: seq<Op>) {
    && ops != []
    && !Last(ops).RegisterDesktop?
    && (LeftSince(Front(ops)) || (Last(ops).UnregisterDesktop? && LatestDesktop(Front(ops)) == Some(Last(ops).conn)))
  }

  /** What the latest desktop said it can do. */
  function LatestCaps(ops: seq<Op>): Caps {
    if ops == [] then None
    else if Last(ops).RegisterDesktop? then Last(ops).caps
    else LatestCaps(Front(ops))
  }

  /** Last writer wins: the slot is the latest registered connection until that one leaves, with its capabilities. */
  lemma {:induction false} DesktopSlot(ops: seq<Op>, conn: Conn)
    ensures Run(ops).desktop == Some(conn) <==> LatestDesktop(ops) == Some(conn) && !LeftSince(ops)
    ensures Run(ops).desktop.None? <==> LatestDesktop(ops).None? || LeftSince(ops)
    ensures Run(ops).caps == if Run(ops).desktop.Some? then LatestCaps(ops) else None
  {
    if ops != [] {
      DesktopSlot(Front(ops), conn);
      if Run(Front(ops)).desktop.Some? {
        DesktopSlot(Front(ops), Run(Front(ops)).desktop.value);
      }
    }
  }

  /** The desktop in the slot, read off the history. */
  function Desktop(ops: seq<Op>): Option<Conn> {
    if LeftSince(ops) then None else LatestDesktop(ops)
  }

  lemma SlotIsDesktop(ops: seq<Op>)
    ensures Run(ops).desktop == Desktop(ops)
  {
    DesktopSlot(ops, if LatestDesktop(ops).Some? then LatestDesktop(ops).value else 0);
  }

  // ---------------------------------------------------------------- what is sent, exactly

  lemma {:induction false} FanoutMembers(clients: seq<Peer>, msg: Message, a: Addressed)
    ensures a in Fanout(clients, msg) <==> a.conn in Conns(clients) && a.msg == msg
  {
    if clients != [] {
      FanoutMembers(Front(clients), msg, a);
      assert clients == Front(clients) + [Last(clients)];
      assert Conns(clients) == Conns(Front(clients)) + {Last(clients).conn};
    }
  }

  /** A registration closes exactly the connection that held the slot, and nothing else closes one. */
  lemma ClosesExactly(ops: seq<Op>, op: Op, c: Conn)
    ensures Addressed(c, CloseSocket) in Sent(Run(ops), op) <==> op.RegisterDesktop? && Desktop(ops) == Some(c)
  {
    SlotIsDesktop(ops);
    SentMembers(Run(ops), op, Addressed(c, CloseSocket));
  }

  /**
   * A status goes to every registered client when a desktop registers, or the one in the slot
   * leaves, and to a client that joins while a desktop is there; with what is true then.
   */
  lemma StatusExactly(ops: seq<Op>, op: Op, c: Conn, online: bool, caps: Caps)
    ensures Addressed(c, Status(online, caps)) in Sent(Run(ops), op) <==>
      || (op.RegisterDesktop? && RegisteredAs(ops, c).Some? && online && caps == op.caps)
      || (op.UnregisterDesktop? && (Desktop(ops).None? || Desktop(ops) == Some(op.conn)) && RegisteredAs(ops, c).Some?
          && !online && caps.None?)
      || (op.RegisterClient? && op.conn == c && Returned(Run(ops), op) == Done && Desktop(ops).Some?
          && online && caps == LatestCaps(ops))
  {
    SlotIsDesktop(ops);
    DesktopSlot(ops, c);
    ClientsExactly(ops, c, "");
    SentMembers(Run(ops), op, Addressed(c, Status(online, caps)));
  }

  /** A payload goes to every registered client if broadcast, and replay traffic to the target. */
  lemma RelayedExactly(ops: seq<Op>, op: Op, c: Conn, payload: Payload)
    ensures Addressed(c, Relayed(payload)) in Sent(Run(ops), op) <==>
      || (op == Broadcast(payload) && RegisteredAs(ops, c).Some?)
      || (op.EndReplay? && payload == SessionList(op.text) && Target(ops).Some? && Target(ops).value.conn == c)
      || (op.RouteScrollback? && payload == Scrollback(op.data) && Target(ops).Some? && Target(ops).value.conn == c)
  {
    TargetExactly(ops);
    ClientsExactly(ops, c, "");
    SentMembers(Run(ops), op, Addressed(c, Relayed(payload)));
  }

  lemma SentMembers(s: State, op: Op, a: Addressed)
    ensures a in Sent(s, op) <==>
      || (op.RegisterDesktop? && s.desktop == Some(a.conn) && a.msg == CloseSocket)
      || (op.RegisterDesktop? && a.conn in Conns(s.clients) && a.msg == Status(true, op.caps))
      || (op.UnregisterDesktop? && !Stale(s, op.conn) && a.conn in Conns(s.clients) && a.msg == Status(false, None))
      || (op.RegisterClient? && op.conn == a.conn && Returned(s, op) == Done && s.desktop.Some? && a.msg == Status(true, s.caps))
      || (op.Broadcast? && a.conn in Conns(s.clients) && a.msg == Relayed(op.payload))
      || (op.EndReplay? && s.target.Some? && a == Addressed(s.target.value.conn, Relayed(SessionList(op.text))))
      || (op.RouteScrollback? && s.target.Some? && a == Addressed(s.target.value.conn, Relayed(Scrollback(op.data))))
  {
    match op
    case RegisterDesktop(_, caps) => FanoutMembers(s.clients, Status(true, caps), a);
    case UnregisterDesktop(_) => FanoutMembers(s.clients, Status(false, None), a);
    case Broadcast(payload) => FanoutMembers(s.clients, Relayed(payload), a);
    case _ =>
  }

  /** The target of the burst, read off the history. */
  function Target(ops: seq<Op>): Option<Peer> {
    if ops == [] then None
    else
      var past, op := Front(ops), Last(ops);
      if op.BeginReplay? then if Run(past).queue == [] then None else Some(Run(past).queue[0])
      else if op.EndReplay? || op.RegisterDesktop? then None
      else if op.UnregisterDesktop? && (Desktop(past).None? || Desktop(past) == Some(op.conn)) then None
      else Target(past)
  }

  /** The target is what the latest begin selected, until a list, another begin or a slot change ends the burst. */
  lemma {:induction false} TargetExactly(ops: seq<Op>)
    ensures Run(ops).target == Target(ops)
  {
    if ops != [] {
      TargetExactly(Front(ops));
      SlotIsDesktop(Front(ops));
    }
  }

  /** The lookups of the replay handlers answer the connection of the target. */
  lemma RouteAnswers(ops: seq<Op>, op: Op)
    requires op.EndReplay? || op.RouteScrollback?
    ensures forall c: Conn :: Returned(Run(ops), op) == Routed(Some(c)) <==> Target(ops).Some? && Target(ops).value.conn == c
    ensures Returned(Run(ops), op) == Routed(None) <==> Target(ops).None?
  {
    TargetExactly(ops);
  }

  /** No message is sent twice by one step. */
  lemma SentOnce(ops: seq<Op>, op: Op)
    ensures
      var sent := Sent(Run(ops), op);
      forall i, j :: 0 <= i < j < |sent| ==> sent[i] != sent[j]
  {
    var s := Run(ops);
    ReachableBounds(ops);
    match op
    case RegisterDesktop(_, caps) => FanoutIsUniform(s.clients, Status(true, caps));
    case UnregisterDesktop(_) => FanoutIsUniform(s.clients, Status(false, None));
    case Broadcast(payload) => FanoutIsUniform(s.clients, Relayed(payload));
    case _ =>
  }

  lemma {:induction false} FanoutIsUniform(clients: seq<Peer>, msg: Message)
    ensures |Fanout(clients, msg)| == |clients|
    ensures forall i :: 0 <= i < |clients| ==> Fanout(clients, msg)[i] == Addressed(clients[i].conn, msg)
  {
    if clients != [] {
      FanoutIsUniform(Front(clients), msg);
    }
  }

  // ---------------------------------------------------------------- status agreement

  /** The latest status a list of messages addresses to a connection. */
  function StatusIn(sent: seq<Addressed>, conn: Conn): Option<Message> {
    if sent == [] then None
    else if Last(sent).conn == conn && Last(sent).msg.Status? then Some(Last(sent).msg)
    else StatusIn(Front(sent), conn)
  }

  /** Since a client joined: the latest status addressed to it, and whether a desktop was ever present. */
  datatype Heard = Heard(status: Option<Message>, desktopSeen: bool)

  function HeardNext(past: Heard, conn: Conn, s: State, op: Op): Heard {
    var joins := op.RegisterClient? && op.conn == conn && conn !in Conns(s.clients) && Returned(s, op) == Done;
    var base := if joins then Heard(None, false) else past;
    var status := StatusIn(Sent(s, op), conn);
    Heard(if status.Some? then status else base.status, base.desktopSeen || Next(s, op).desktop.Some?)
  }

  function HeardBy(ops: seq<Op>, conn: Conn): Heard {
    if ops == [] then Heard(None, false)
    else HeardNext(HeardBy(Front(ops), conn), conn, Run(Front(ops)), Last(ops))
  }

  predicate Informed(s: State, conn: Conn, heard: Heard) {
    if heard.status.Some? then heard.status.value == Status(s.desktop.Some?, s.caps)
    else !heard.desktopSeen && s.desktop.None?
  }

  lemma {:induction false} StatusInFanout(prefix: seq<Addressed>, clients: seq<Peer>, msg: Message, conn: Conn)
    requires msg.Status? && conn in Conns(clients)
    ensures StatusIn(prefix + Fanout(clients, msg), conn) == Some(msg)
  {
    var all := prefix + Fanout(clients, msg);
    assert Front(all) == prefix + Fanout(Front(clients), msg);
    if Last(clients).conn != conn {
      var p :| p in clients && p.conn == conn;
      assert p in Front(clients);
      StatusInFanout(prefix, Front(clients), msg, conn);
    }
  }

  lemma StatusInOne(a: Addressed, conn: Conn)
    ensures StatusIn([a], conn) == if a.conn == conn && a.msg.Status? then Some(a.msg) else None
  {
    assert Front([a]) == [];
  }

  lemma ConnsAfter(s: State, op: Op, conn: Conn)
    requires conn in Conns(Next(s, op).clients)
    ensures conn in Conns(s.clients) || (op.RegisterClient? && op.conn == conn && Returned(s, op) == Done)
  {
    match op
    case RegisterClient(c, device) =>
      RejoinKeepsConns(s.clients, Peer(device, c));
      var i :| 0 <= i < |Next(s, op).clients| && Next(s, op).clients[i].conn == conn;
      if i < |s.clients| {
        assert s.clients[i] in s.clients;
      }
    case UnregisterClient(c) => WithoutShrinks(s.clients, ByConn(c));
    case UnregisterDevice(d) => WithoutShrinks(s.clients, ByDevice(d));
    case _ =>
  }

  lemma NextInforms(s: State, op: Op, conn: Conn, past: Heard)
    requires Bounded(s)
    requires conn in Conns(s.clients) ==> Informed(s, conn, past)
    requires conn in Conns(Next(s, op).clients)
    ensures Informed(Next(s, op), conn, HeardNext(past, conn, s, op))
  {
    ConnsAfter(s, op, conn);
    match op
    case RegisterDesktop(_, caps) =>
      var prefix := if s.desktop.Some? then [Addressed(s.desktop.value, CloseSocket)] else [];
      StatusInFanout(prefix, s.clients, Status(true, caps), conn);
    case UnregisterDesktop(c) =>
      StatusInFanout([], s.clients, Status(false, None), conn);
      assert [] + Fanout(s.clients, Status(false, None)) == Fanout(s.clients, Status(false, None));
    case Broadcast(payload) => NoStatusInFanout(s.clients, Relayed(payload), conn);
    case RegisterClient(c, _) => StatusInOne(Addressed(c, Status(true, s.caps)), conn);
    case EndReplay(text) => if s.target.Some? { StatusInOne(Addressed(s.target.value.conn, Relayed(SessionList(text))), conn); }
    case RouteScrollback(data) => if s.target.Some? { StatusInOne(Addressed(s.target.value.conn, Relayed(Scrollback(data))), conn); }
    case _ =>
  }

  lemma {:induction false} NoStatusInFanout(clients: seq<Peer>, msg: Message, conn: Conn)
    requires !msg.Status?
    ensures StatusIn(Fanout(clients, msg), conn).None?
  {
    if clients != [] {
      NoStatusInFanout(Front(clients), msg, conn);
      assert Front(Fanout(clients, msg)) == Fanout(Front(clients), msg);
    }
  }

  /**
   * In every reachable state, the latest status addressed to a registered client since it
   * joined is the state of the desktop slot; if none was, no desktop has been present since.
   */
  lemma {:induction false} StatusAgreement(ops: seq<Op>, conn: Conn)
    requires conn in Conns(Run(ops).clients)
    ensures Informed(Run(ops), conn, HeardBy(ops, conn))
  {
    if ops != [] {
      var s := Run(Front(ops));
      if conn in Conns(s.clients) {
        StatusAgreement(Front(ops), conn);
      }
      ReachableBounds(Front(ops));
      NextInforms(s, Last(ops), conn, HeardBy(Front(ops), conn));
    }
  }

  // ---------------------------------------------------------------- replay order

  /** The steps after which replay bookkeeping starts afresh. */
  predicate Resets(s: State, op: Op) {
    op.RegisterDesktop? || (op.UnregisterDesktop? && !Stale(s, op.conn))
  }

  /**
   * Replay history since the last reset: every list request, those accepted and not withdrawn
   * while waiting, the ones selected for a burst, and whether none was refused or withdrawn.
   */
  datatype Replays = Replays(requested: seq<Peer>, kept: seq<Peer>, selected: seq<Peer>, orderly: bool)

  /** Withdrawing only reaches requests that have not been selected yet. */
  function Withdraw(r: Replays, key: Key): Replays {
    if |r.kept| < |r.selected| then r
    else
      var kept := r.kept[..|r.selected|] + Without(r.kept[|r.selected|..], key);
      r.(kept := kept, orderly := r.orderly && kept == r.kept)
  }

  function ReplaysNext(r: Replays, s: State, op: Op): Replays {
    if Resets(s, op) then Replays([], [], [], true)
    else match op
      case UnregisterClient(conn) => Withdraw(r, ByConn(conn))
      case UnregisterDevice(device) => Withdraw(r, ByDevice(device))
      case NoteListRequest(device, conn) =>
        var asked := r.(requested := r.requested + [Peer(device, conn)]);
        if |s.queue| < 64 then asked.(kept := r.kept + [Peer(device, conn)]) else asked.(orderly := false)
      case BeginReplay =>
        if Next(s, op).target.Some? then r.(selected := r.selected + [Next(s, op).target.value]) else r
      case _ => r
  }

  function ReplayHistory(ops: seq<Op>): Replays {
    if ops == [] then Replays([], [], [], true)
    else ReplaysNext(ReplayHistory(Front(ops)), Run(Front(ops)), Last(ops))
  }

  predicate InOrder(r: Replays, s: State) {
    && r.kept == r.selected + s.queue
    && (r.orderly ==> r.kept == r.requested)
  }

  lemma WithdrawKeepsOrder(r: Replays, s: State, key: Key)
    requires InOrder(r, s)
    ensures Withdraw(r, key).kept == r.selected + Without(s.queue, key)
    ensures Withdraw(r, key).selected == r.selected && Withdraw(r, key).requested == r.requested
    ensures Withdraw(r, key).orderly ==> r.orderly && Withdraw(r, key).kept == r.kept
  {
    assert r.kept[..|r.selected|] == r.selected && r.kept[|r.selected|..] == s.queue;
  }

  lemma RequestKeepsOrder(r: Replays, s: State, op: Op)
    requires InOrder(r, s) && op.NoteListRequest?
    ensures InOrder(ReplaysNext(r, s, op), Next(s, op))
  {
    var peer := Peer(op.device, op.conn);
    assert r.selected + s.queue + [peer] == r.selected + (s.queue + [peer]);
  }

  lemma BeginKeepsOrder(r: Replays, s: State)
    requires InOrder(r, s)
    ensures InOrder(ReplaysNext(r, s, BeginReplay), Next(s, BeginReplay))
  {
    if s.queue != [] {
      assert r.selected + s.queue == (r.selected + [s.queue[0]]) + s.queue[1..];
    }
  }

  lemma NextKeepsOrder(r: Replays, s: State, op: Op)
    requires InOrder(r, s)
    ensures InOrder(ReplaysNext(r, s, op), Next(s, op))
  {
    match op
    case UnregisterClient(conn) => WithdrawKeepsOrder(r, s, ByConn(conn));
    case UnregisterDevice(device) => WithdrawKeepsOrder(r, s, ByDevice(device));
    case NoteListRequest(_, _) => RequestKeepsOrder(r, s, op);
    case BeginReplay => BeginKeepsOrder(r, s);
    case _ =>
  }

  /**
   * Accepted list requests, less those withdrawn while waiting, are the connections selected
   * by `begin_replay` followed by the queue, in order.  With no refusal and no withdrawal the
   * k-th burst therefore goes to the k-th requester.
   */
  lemma {:induction false} ReplayFifo(ops: seq<Op>)
    ensures
      var r := ReplayHistory(ops);
      && r.kept == r.selected + Run(ops).queue
      && (r.orderly ==> r.selected <= r.requested)
    ensures InOrder(ReplayHistory(ops), Run(ops))
  {
    if ops != [] {
      ReplayFifo(Front(ops));
      NextKeepsOrder(ReplayHistory(Front(ops)), Run(Front(ops)), Last(ops));
    }
  }

  // ---------------------------------------------------------------- burst exclusivity

  /** Steps that leave a burst open: everything but its end, another begin, or a slot change. */
  predicate LeavesBurst(s: State, op: Op) {
    !op.BeginReplay? && !op.EndReplay? && !Resets(s, op)
  }

  ghost predicate BurstOpen(ops: seq<Op>, n: nat)
    requires n <= |ops|
  {
    forall i :: n <= i < |ops| ==> LeavesBurst(Run(ops[..i]), ops[i])
  }

  lemma {:induction false} TargetHolds(ops: seq<Op>, n: nat)
    requires n <= |ops| && BurstOpen(ops, n)
    ensures Run(ops).target == Run(ops[..n]).target
  {
    if n == |ops| {
      assert ops[..n] == ops;
    } else {
      forall i | n <= i < |Front(ops)| ensures LeavesBurst(Run(Front(ops)[..i]), Front(ops)[i]) {
        assert Front(ops)[..i] == ops[..i];
        assert LeavesBurst(Run(ops[..i]), ops[i]);
      }
      TargetHolds(Front(ops), n);
      assert Front(ops)[..n] == ops[..n];
      assert ops[..|ops| - 1] == Front(ops);
      assert LeavesBurst(Run(ops[..|ops| - 1]), ops[|ops| - 1]);
    }
  }
}
