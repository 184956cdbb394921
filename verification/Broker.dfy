/**
 * The broker itself (src/broker.rs): one object whose methods change the account map in place.
 * Every method is one step of the account model.  The object remembers its calls, with the
 * environment each was made in, and its account map is always the broker run of those calls, so
 * what is proved of runs holds of the object: see the lemmas at the end of the class.  Messages
 * a call addresses are appended to `outbox`, which is always what those calls sent.
 */
module Broker {
  import opened Common
  import Expiry
  import opened Account
  import Presence
  import Uploads
  import Downloads
  import Supervisor

  /** A call did to the accounts, and answered, what the account model says. */
  ghost predicate Did(before: Accounts, after: Accounts, user: string, event: Event<Op>, outcome: Outcome) {
    && after == Apply(before, Call(user, event))
    && outcome == Answer(before, Call(user, event))
  }

  /**
   * What surrounds a call: the instant its sweep reads, the instant that stamps an entry, and
   * the connections that are gone.  Calls that read no clock take it as a ghost.
   */
  datatype Env = Env(at: Instant, stamp: Instant, closed: set<Conn>)

  function On(env: Env, op: Op): Event<Op> {
    Event(env.at, env.stamp, env.closed, op)
  }

  /** The outcomes are those of the calls, each made on what the earlier ones left. */
  ghost predicate Recorded(calls: seq<Call>, outcomes: seq<Outcome>) {
    && |calls| == |outcomes|
    && (calls != [] ==>
          && Recorded(Front(calls), Front(outcomes))
          && Last(outcomes) == Answer(BrokerRun(Front(calls)), Last(calls)))
  }

  lemma {:induction false} RecordedAt(calls: seq<Call>, outcomes: seq<Outcome>, i: nat)
    requires Recorded(calls, outcomes) && i < |calls|
    ensures outcomes[i] == Answer(BrokerRun(calls[..i]), calls[i])
  {
    if i == |calls| - 1 {
      assert calls[..i] == Front(calls);
    } else {
      RecordedAt(Front(calls), Front(outcomes), i);
      assert Front(calls)[..i] == calls[..i];
    }
  }

  /** The messages an outcome comes with. */
  function Messages(outcome: Outcome): seq<Presence.Addressed> {
    if outcome.OfPresence? then outcome.sent else []
  }

  /** Everything that was sent, in order. */
  function Mail(outcomes: seq<Outcome>): seq<Presence.Addressed> {
    if outcomes == [] then [] else Mail(Front(outcomes)) + Messages(Last(outcomes))
  }

  ghost function PresenceOf(accounts: Accounts, user: string): Presence.State {
    View(Find(accounts, user)).presence
  }

  /** Where replay traffic goes: to the target of the burst, or to every client if there is none. */
  function Routed(s: Presence.State, payload: Presence.Payload): seq<Presence.Addressed> {
    if s.target.Some? then [Presence.Addressed(s.target.value.conn, Presence.Relayed(payload))]
    else Presence.Fanout(s.clients, Presence.Relayed(payload))
  }

  /** A call on an account that exists, or that it creates, replaces that account by its next state. */
  lemma ApplyReplaces(accounts: Accounts, user: string, e: Event<Op>)
    requires user in accounts || Creates(e.op)
    ensures Apply(accounts, Call(user, e)) == accounts[user := Next(View(Find(accounts, user)), e)]
  {
  }

  // ---------------------------------------------------------------- collections

  /** `HashMap::retain` */
  method Retain<E>(table: map<string, E>, keep: E -> bool) returns (kept: map<string, E>)
    ensures kept == map id | id in table && keep(table[id]) :: table[id]
  {
    kept := table;
    var ids := table.Keys;
    while ids != {}
      invariant ids <= table.Keys
      invariant kept == map id | id in table && (id in ids || keep(table[id])) :: table[id]
      decreases |ids|
    {
      var id :| id in ids;
      ids := ids - {id};
      if !keep(table[id]) {
        kept := kept - {id};
      }
    }
  }

  /** `Vec::retain` and `VecDeque::retain` */
  method RetainPeers(peers: seq<Presence.Peer>, key: Presence.Key) returns (kept: seq<Presence.Peer>)
    ensures kept == Presence.Without(peers, key)
  {
    kept := [];
    for i := 0 to |peers|
      invariant kept == Presence.Without(peers[..i], key)
    {
      assert Front(peers[..i + 1]) == peers[..i];
      if !Presence.Hits(peers[i], key) {
        kept := kept + [peers[i]];
      }
    }
    assert peers[..|peers|] == peers;
  }

  /** The first client registered for a connection, or the length of the vector. */
  method FindClient(clients: seq<Presence.Peer>, conn: Conn) returns (index: nat)
    ensures index <= |clients|
    ensures index == |clients| <==> conn !in Presence.Conns(clients)
    ensures index < |clients| ==> clients[index].conn == conn
    ensures forall i :: 0 <= i < index ==> clients[i].conn != conn
  {
    index := 0;
    while index < |clients|
      invariant index <= |clients|
      invariant forall i :: 0 <= i < index ==> clients[i].conn != conn
    {
      if clients[index].conn == conn {
        assert clients[index] in clients;
        return;
      }
      index := index + 1;
    }
  }

  /** Updating the first match in place is what re-registration means. */
  lemma {:induction false} RejoinInPlace(peers: seq<Presence.Peer>, peer: Presence.Peer, index: nat)
    requires index < |peers| && peers[index].conn == peer.conn
    requires forall i :: 0 <= i < index ==> peers[i].conn != peer.conn
    ensures Presence.Rejoin(peers, peer) == peers[index := peer]
  {
    if index > 0 {
      RejoinInPlace(peers[1..], peer, index - 1);
    }
  }

  /** A client joins the vector, is updated in place, or finds it full. */
  method Join(s: Presence.State, conn: Conn, device: string) returns (next: Presence.State, outcome: Presence.Outcome)
    ensures next == Presence.Next(s, Presence.RegisterClient(conn, device))
    ensures outcome == Presence.Returned(s, Presence.RegisterClient(conn, device))
  {
    var peer := Presence.Peer(device, conn);
    var index := FindClient(s.clients, conn);
    if index < |s.clients| {
      RejoinInPlace(s.clients, peer, index);
      return s.(clients := s.clients[index := peer]), Presence.Done;
    }
    if |s.clients| >= Presence.MAX_CLIENTS {
      return s, Presence.TooManyClients;
    }
    return s.(clients := s.clients + [peer]), Presence.Done;
  }

  /** A desktop takes the slot; its capabilities are recorded and replay starts afresh. */
  method Install(s: State, conn: Conn, caps: Presence.Caps, ghost e: Event<Op>) returns (next: State)
    requires e.op == OnPresence(Presence.RegisterDesktop(conn, caps))
    ensures next == Next(s, e)
  {
    return s.(presence := s.presence.(desktop := Some(conn), caps := caps, queue := [], target := None));
  }

  /** A desktop leaves with its uploads, but does not empty a slot that another one has taken. */
  method DropDesktop(s: State, conn: Conn, ghost e: Event<Op>) returns (next: State, replaced: bool)
    requires e.op == OnPresence(Presence.UnregisterDesktop(conn))
    ensures next == Next(s, e) && replaced == Presence.Stale(s.presence, conn)
  {
    var uploads := Retain(s.uploads, (u: Uploads.Entry) => u.owner != conn);
    assert uploads == Uploads.Act(s.uploads, Uploads.DropOwner(conn), e.stamp).0;
    if s.presence.desktop.Some? && s.presence.desktop.value != conn {
      return s.(uploads := uploads), true;
    }
    var presence := s.presence.(desktop := None, caps := None, queue := [], target := None);
    return s.(presence := presence, uploads := uploads), false;
  }

  /** A client leaves with its queued requests, its uploads and its downloads. */
  method DropClient(s: State, conn: Conn, ghost e: Event<Op>) returns (next: State)
    requires e.op == OnPresence(Presence.UnregisterClient(conn))
    ensures next == Next(s, e)
  {
    var clients := RetainPeers(s.presence.clients, Presence.ByConn(conn));
    var queue := RetainPeers(s.presence.queue, Presence.ByConn(conn));
    var uploads := Retain(s.uploads, (u: Uploads.Entry) => u.owner != conn);
    assert uploads == Uploads.Act(s.uploads, Uploads.DropOwner(conn), e.stamp).0;
    var downloads := Retain(s.downloads, (d: Downloads.Entry) => d.owner != conn);
    assert downloads == Downloads.Act(s.downloads, Downloads.DropOwner(conn), e.stamp).0;
    return State(s.presence.(clients := clients, queue := queue), uploads, downloads, s.supervisor);
  }

  /** The decision on a chunk of a download, once the table has been swept. */
  method GovernDownload(downloads: Downloads.Table, id: string, payload: Bytes, stamp: Instant)
    returns (next: Downloads.Table, decision: Downloads.ChunkDecision)
    ensures (next, Downloads.Decided(decision)) == Downloads.Act(downloads, Downloads.Chunk(id, payload), stamp)
  {
    if id !in downloads {
      return downloads, Downloads.Drop;
    }
    var entry := downloads[id].(forwarded := downloads[id].forwarded + |payload|, lastActivity := stamp);
    if entry.forwarded > Downloads.Limit(entry.declared) {
      return downloads - {id}, Downloads.Overrun(entry.owner);
    }
    return downloads[id := entry], Downloads.Forward(entry.owner);
  }

  /** The decision on a query, once the table has been swept. */
  method GovernQuery(pending: Supervisor.Table, id: string, conn: Conn, stamp: Instant)
    returns (next: Supervisor.Table, decision: Supervisor.Outcome)
    ensures forall closed :: (next, decision) == Supervisor.Act(pending, Supervisor.Query(id, conn), closed, stamp)
  {
    if id in pending {
      var stored := pending[id].stored;
      if stored.Some? {
        return pending - {id}, Supervisor.Replay(stored.value);
      }
      return pending[id := pending[id].(owner := conn)], Supervisor.Reowned;
    }
    if |pending| >= Supervisor.MAX_PENDING_SUPERVISOR {
      return pending, Supervisor.Capacity;
    }
    return pending[id := Supervisor.Entry(conn, None, stamp)], Supervisor.Forward;
  }

  /** The decision on a chunk of an upload, once the table has been swept. */
  method GovernChunk(uploads: Uploads.Table, id: string, conn: Conn, payload: Bytes, stamp: Instant)
    returns (next: Uploads.Table, decision: Uploads.ChunkDecision)
    ensures (next, Uploads.Decided(decision)) == Uploads.Act(uploads, Uploads.Chunk(id, conn, payload), stamp)
  {
    if id !in uploads {
      return uploads, Uploads.Drop;
    }
    var entry := uploads[id];
    if entry.finished || entry.owner != conn {
      return uploads, Uploads.Drop;
    }
    entry := entry.(forwarded := entry.forwarded + |payload|, lastActivity := stamp);
    if entry.forwarded > Uploads.Budget(entry) {
      return uploads - {id}, Uploads.Overrun;
    }
    if entry.buffer.Some? {
      entry := entry.(buffer := Some(entry.buffer.value + payload));
    }
    return uploads[id := entry], Uploads.Forward;
  }

  class Broker {
    var accounts: Accounts
    var outbox: seq<Presence.Addressed>
    ghost var calls: seq<Call>
    ghost var outcomes: seq<Outcome>

    ghost predicate Valid()
      reads this
    {
      accounts == BrokerRun(calls) && Recorded(calls, outcomes) && outbox == Mail(outcomes)
    }

    constructor ()
      ensures Valid() && accounts == map[] && outbox == [] && calls == []
    {
      accounts := map[];
      outbox := [];
      calls, outcomes := [], [];
    }

    /** Every method begins by remembering the call. */
    ghost method Log(call: Call)
      requires Valid()
      modifies this`calls, this`outcomes
      ensures calls == old(calls) + [call] && outcomes == old(outcomes) + [Answer(accounts, call)]
      ensures Recorded(calls, outcomes) && BrokerRun(calls) == Apply(accounts, call)
      ensures Mail(outcomes) == outbox + Messages(Answer(accounts, call))
      ensures Messages(Answer(accounts, call)) == [] ==> Mail(outcomes) == outbox
    {
      outcomes := outcomes + [Answer(accounts, call)];
      calls := calls + [call];
      assert Front(calls) == old(calls) && Front(outcomes) == old(outcomes);
    }

    /** `entry(..).or_insert_with(AccountState::new)` */
    function Entry(user: string): (s: State)
      reads this
      ensures s == View(Find(accounts, user))
    {
      if user in accounts then accounts[user] else Empty
    }

    /** The loop that sends one message to every client. */
    method SendToAll(clients: seq<Presence.Peer>, msg: Presence.Message)
      modifies this`outbox
      ensures outbox == old(outbox) + Presence.Fanout(clients, msg)
    {
      for i := 0 to |clients|
        invariant outbox == old(outbox) + Presence.Fanout(clients[..i], msg)
      {
        assert Front(clients[..i + 1]) == clients[..i];
        outbox := outbox + [Presence.Addressed(clients[i].conn, msg)];
      }
      assert clients[..|clients|] == clients;
    }

    // -------------------------------------------------------------- presence

    /** The desktop that held the slot is told to close, then every client hears of the new one. */
    method Announce(s: Presence.State, conn: Conn, caps: Presence.Caps)
      modifies this`outbox
      ensures outbox == old(outbox) + Presence.Sent(s, Presence.RegisterDesktop(conn, caps))
    {
      if s.desktop.Some? {
        outbox := outbox + [Presence.Addressed(s.desktop.value, Presence.CloseSocket)];
      }
      SendToAll(s.clients, Presence.Status(true, caps));
    }

    method RegisterDesktop(user: string, conn: Conn, caps: Presence.Caps, ghost env: Env)
      requires Valid()
      modifies this
      ensures Valid() && calls == old(calls) + [Call(user, On(env, OnPresence(Presence.RegisterDesktop(conn, caps))))]
      ensures
        var op := Presence.RegisterDesktop(conn, caps);
        && accounts == Apply(old(accounts), Call(user, On(env, OnPresence(op))))
        && outbox == old(outbox) + Presence.Sent(PresenceOf(old(accounts), user), op)
    {
      Log(Call(user, On(env, OnPresence(Presence.RegisterDesktop(conn, caps)))));
      ghost var e := On(env, OnPresence(Presence.RegisterDesktop(conn, caps)));
      ApplyReplaces(accounts, user, e);
      var state := Entry(user);
      var next := Install(state, conn, caps, e);
      accounts := accounts[user := next];
      Announce(state.presence, conn, caps);
    }

    method UnregisterDesktop(user: string, conn: Conn, ghost env: Env)
      requires Valid()
      modifies this
      ensures Valid() && calls == old(calls) + [Call(user, On(env, OnPresence(Presence.UnregisterDesktop(conn))))]
      ensures
        var op := Presence.UnregisterDesktop(conn);
        && accounts == Apply(old(accounts), Call(user, On(env, OnPresence(op))))
        && (user in old(accounts) ==> outbox == old(outbox) + Presence.Sent(PresenceOf(old(accounts), user), op))
        && (user !in old(accounts) ==> outbox == old(outbox))
    {
      Log(Call(user, On(env, OnPresence(Presence.UnregisterDesktop(conn)))));
      if user !in accounts {
        return;
      }
      ghost var e := On(env, OnPresence(Presence.UnregisterDesktop(conn)));
      ApplyReplaces(accounts, user, e);
      var state := accounts[user];
      var next, replaced := DropDesktop(state, conn, e);
      accounts := accounts[user := next];
      if !replaced {
        SendToAll(state.presence.clients, Presence.Status(false, None));
      }
    }

    method RegisterClient(user: string, conn: Conn, device: string, ghost env: Env) returns (outcome: Presence.Outcome)
      requires Valid()
      modifies this
      ensures Valid() && calls == old(calls) + [Call(user, On(env, OnPresence(Presence.RegisterClient(conn, device))))]
      ensures
        var op := Presence.RegisterClient(conn, device);
        && accounts == Apply(old(accounts), Call(user, On(env, OnPresence(op))))
        && outcome == Presence.Returned(PresenceOf(old(accounts), user), op)
        && outbox == old(outbox) + Presence.Sent(PresenceOf(old(accounts), user), op)
    {
      Log(Call(user, On(env, OnPresence(Presence.RegisterClient(conn, device)))));
      var state := Entry(user);
      var presence;
      presence, outcome := Join(state.presence, conn, device);
      accounts := accounts[user := state.(presence := presence)];
      if outcome.Done? && presence.desktop.Some? {
        outbox := outbox + [Presence.Addressed(conn, Presence.Status(true, presence.caps))];
      }
    }

    method UnregisterClient(user: string, conn: Conn, ghost env: Env)
      requires Valid()
      modifies this`accounts, this`calls, this`outcomes
      ensures Valid() && calls == old(calls) + [Call(user, On(env, OnPresence(Presence.UnregisterClient(conn))))]
      ensures accounts == Apply(old(accounts), Call(user, On(env, OnPresence(Presence.UnregisterClient(conn)))))
    {
      Log(Call(user, On(env, OnPresence(Presence.UnregisterClient(conn)))));
      if user !in accounts {
        return;
      }
      ghost var e := On(env, OnPresence(Presence.UnregisterClient(conn)));
      ApplyReplaces(accounts, user, e);
      var next := DropClient(accounts[user], conn, e);
      accounts := accounts[user := next];
    }

    method UnregisterDevice(user: string, device: string, ghost env: Env)
      requires Valid()
      modifies this`accounts, this`calls, this`outcomes
      ensures Valid() && calls == old(calls) + [Call(user, On(env, OnPresence(Presence.UnregisterDevice(device))))]
      ensures accounts == Apply(old(accounts), Call(user, On(env, OnPresence(Presence.UnregisterDevice(device)))))
    {
      Log(Call(user, On(env, OnPresence(Presence.UnregisterDevice(device)))));
      if user !in accounts {
        return;
      }
      var state := accounts[user];
      var clients := RetainPeers(state.presence.clients, Presence.ByDevice(device));
      var queue := RetainPeers(state.presence.queue, Presence.ByDevice(device));
      accounts := accounts[user := state.(presence := state.presence.(clients := clients, queue := queue))];
    }

    // -------------------------------------------------------------- replay

    method NoteSessionListRequest(user: string, device: string, conn: Conn, ghost env: Env) returns (clearsDirty: bool)
      requires Valid()
      modifies this`accounts, this`calls, this`outcomes
      ensures Valid() && calls == old(calls) + [Call(user, On(env, OnPresence(Presence.NoteListRequest(device, conn))))]
      ensures accounts == Apply(old(accounts), Call(user, On(env, OnPresence(Presence.NoteListRequest(device, conn)))))
      ensures clearsDirty <==> user in old(accounts)
    {
      Log(Call(user, On(env, OnPresence(Presence.NoteListRequest(device, conn)))));
      if user !in accounts {
        return false;
      }
      var presence := accounts[user].presence;
      if |presence.queue| < Presence.MAX_REPLAY_QUEUE {
        presence := presence.(queue := presence.queue + [Presence.Peer(device, conn)]);
        accounts := accounts[user := accounts[user].(presence := presence)];
      }
      return true;
    }

    method BeginReplay(user: string, ghost env: Env)
      requires Valid()
      modifies this`accounts, this`calls, this`outcomes
      ensures Valid() && calls == old(calls) + [Call(user, On(env, OnPresence(Presence.BeginReplay)))]
      ensures accounts == Apply(old(accounts), Call(user, On(env, OnPresence(Presence.BeginReplay))))
    {
      Log(Call(user, On(env, OnPresence(Presence.BeginReplay))));
      if user !in accounts {
        return;
      }
      var presence := accounts[user].presence;
      if presence.queue == [] {
        presence := presence.(target := None);
      } else {
        presence := presence.(target := Some(presence.queue[0]), queue := presence.queue[1..]);
      }
      accounts := accounts[user := accounts[user].(presence := presence)];
    }

    /** `end_replay` and the send its caller makes to the returned connection. */
    method EndReplay(user: string, text: string, ghost env: Env) returns (route: Option<Conn>)
      requires Valid()
      modifies this
      ensures Valid() && calls == old(calls) + [Call(user, On(env, OnPresence(Presence.EndReplay(text))))]
      ensures
        var op := Presence.EndReplay(text);
        && accounts == Apply(old(accounts), Call(user, On(env, OnPresence(op))))
        && Presence.Routed(route) == Presence.Returned(PresenceOf(old(accounts), user), op)
        && outbox == old(outbox) + Presence.Sent(PresenceOf(old(accounts), user), op)
      ensures route.None? ==> outbox == old(outbox)
    {
      Log(Call(user, On(env, OnPresence(Presence.EndReplay(text)))));
      if user !in accounts {
        return None;
      }
      var target := accounts[user].presence.target;
      accounts := accounts[user := accounts[user].(presence := accounts[user].presence.(target := None))];
      if target.None? {
        return None;
      }
      outbox := outbox + [Presence.Addressed(target.value.conn, Presence.Relayed(Presence.SessionList(text)))];
      return Some(target.value.conn);
    }

    /** `replay_target` and the send its caller makes to the returned connection. */
    method RouteScrollback(user: string, data: Bytes, ghost env: Env) returns (route: Option<Conn>)
      requires Valid()
      modifies this`outbox, this`calls, this`outcomes
      ensures Valid() && calls == old(calls) + [Call(user, On(env, OnPresence(Presence.RouteScrollback(data))))]
      ensures
        var op := Presence.RouteScrollback(data);
        && accounts == Apply(old(accounts), Call(user, On(env, OnPresence(op))))
        && Presence.Routed(route) == Presence.Returned(PresenceOf(accounts, user), op)
        && outbox == old(outbox) + Presence.Sent(PresenceOf(accounts, user), op)
      ensures route.None? ==> outbox == old(outbox)
    {
      Log(Call(user, On(env, OnPresence(Presence.RouteScrollback(data)))));
      if user in accounts && accounts[user].presence.target.Some? {
        var conn := accounts[user].presence.target.value.conn;
        outbox := outbox + [Presence.Addressed(conn, Presence.Relayed(Presence.Scrollback(data)))];
        return Some(conn);
      }
      return None;
    }

    /** `broadcast_to_clients` for anything but live output. */
    method Broadcast(user: string, payload: Presence.Payload, ghost env: Env)
      requires Valid()
      modifies this`outbox, this`calls, this`outcomes
      ensures Valid() && calls == old(calls) + [Call(user, On(env, OnPresence(Presence.Broadcast(payload))))]
      ensures outbox == old(outbox) + Presence.Sent(PresenceOf(accounts, user), Presence.Broadcast(payload))
    {
      Log(Call(user, On(env, OnPresence(Presence.Broadcast(payload)))));
      if user in accounts {
        SendToAll(accounts[user].presence.clients, Presence.Relayed(payload));
      }
    }

    /** The scrollback handler, uninterrupted: the frame goes to the target alone, or to every client if there is none. */
    method HandleScrollback(user: string, data: Bytes, ghost env: Env)
      requires Valid()
      modifies this
      ensures Valid() && accounts == old(accounts)
      ensures
        var lookup := Call(user, On(env, OnPresence(Presence.RouteScrollback(data))));
        var fallback := Call(user, On(env, OnPresence(Presence.Broadcast(Presence.Scrollback(data)))));
        calls == old(calls) + [lookup] + (if PresenceOf(accounts, user).target.Some? then [] else [fallback])
      ensures outbox == old(outbox) + Routed(PresenceOf(accounts, user), Presence.Scrollback(data))
    {
      var route := RouteScrollback(user, data, env);
      if route.None? {
        Broadcast(user, Presence.Scrollback(data), env);
      }
    }

    /** The session-list handler, uninterrupted: the list ends the burst, and goes the same way. */
    method HandleSessionList(user: string, text: string, ghost env: Env)
      requires Valid()
      modifies this
      ensures Valid()
      ensures
        var close := Call(user, On(env, OnPresence(Presence.EndReplay(text))));
        var fallback := Call(user, On(env, OnPresence(Presence.Broadcast(Presence.SessionList(text)))));
        && calls == old(calls) + [close] + (if PresenceOf(old(accounts), user).target.Some? then [] else [fallback])
        && accounts == Apply(old(accounts), close)
      ensures outbox == old(outbox) + Routed(PresenceOf(old(accounts), user), Presence.SessionList(text))
    {
      var route := EndReplay(user, text, env);
      if route.None? {
        Broadcast(user, Presence.SessionList(text), env);
      }
    }

    // -------------------------------------------------------------- uploads

    static method GcUploads(table: Uploads.Table, now: Instant) returns (kept: Uploads.Table)
      ensures kept == Uploads.Gc(table, now)
    {
      kept := Retain(table, (e: Uploads.Entry) => AsSecs(e.lastActivity, now) < Expiry.UPLOAD_IDLE_TIMEOUT_SECS);
    }

    method BeginUpload(user: string, id: string, size: nat, conn: Conn, env: Env)
      returns (r: Result<(), string>)
      requires Valid()
      modifies this`accounts, this`calls, this`outcomes
      ensures Valid() && calls == old(calls) + [Call(user, On(env, OnUploads(Uploads.Begin(id, size, conn))))]
      ensures Did(old(accounts), accounts, user, On(env, OnUploads(Uploads.Begin(id, size, conn))),
                  OfUploads(Uploads.Begun(r)))
    {
      Log(Call(user, On(env, OnUploads(Uploads.Begin(id, size, conn)))));
      var state := Entry(user);
      var uploads := GcUploads(state.uploads, env.at);
      accounts := accounts[user := state.(uploads := uploads)];
      if size > Uploads.MAX_UPLOAD_SIZE {
        return Err("file_too_large");
      }
      if |uploads| >= Uploads.MAX_ACTIVE_UPLOADS {
        return Err("too_many_uploads");
      }
      if id in uploads {
        return Err("duplicate_upload_id");
      }
      uploads := uploads[id := Uploads.Entry(conn, size, 0, env.stamp, false, None)];
      accounts := accounts[user := state.(uploads := uploads)];
      return Ok(());
    }

    method MarkBugReportUpload(user: string, id: string, conn: Conn, ghost env: Env)
      requires Valid()
      modifies this`accounts, this`calls, this`outcomes
      ensures Valid() && calls == old(calls) + [Call(user, On(env, OnUploads(Uploads.Mark(id, conn))))]
      ensures Did(old(accounts), accounts, user, On(env, OnUploads(Uploads.Mark(id, conn))), OfUploads(Uploads.Done))
    {
      Log(Call(user, On(env, OnUploads(Uploads.Mark(id, conn)))));
      if user in accounts && id in accounts[user].uploads && accounts[user].uploads[id].owner == conn {
        var state := accounts[user];
        var entry := state.uploads[id].(buffer := Some([]));
        accounts := accounts[user := state.(uploads := state.uploads[id := entry])];
      }
    }

    method TakeBugReportBuffer(user: string, id: string, conn: Conn, ghost env: Env) returns (buffer: Option<Bytes>)
      requires Valid()
      modifies this`accounts, this`calls, this`outcomes
      ensures Valid() && calls == old(calls) + [Call(user, On(env, OnUploads(Uploads.Take(id, conn))))]
      ensures Did(old(accounts), accounts, user, On(env, OnUploads(Uploads.Take(id, conn))), OfUploads(Uploads.Taken(buffer)))
    {
      Log(Call(user, On(env, OnUploads(Uploads.Take(id, conn)))));
      if user !in accounts || id !in accounts[user].uploads {
        return None;
      }
      var state := accounts[user];
      var entry := state.uploads[id];
      if entry.owner != conn {
        return None;
      }
      buffer := entry.buffer;
      accounts := accounts[user := state.(uploads := state.uploads[id := entry.(buffer := None)])];
    }

    method RecordUploadChunk(user: string, id: string, conn: Conn, payload: Bytes, env: Env)
      returns (decision: Uploads.ChunkDecision)
      requires Valid()
      modifies this`accounts, this`calls, this`outcomes
      ensures Valid() && calls == old(calls) + [Call(user, On(env, OnUploads(Uploads.Chunk(id, conn, payload))))]
      ensures Did(old(accounts), accounts, user, On(env, OnUploads(Uploads.Chunk(id, conn, payload))),
                  OfUploads(Uploads.Decided(decision)))
    {
      Log(Call(user, On(env, OnUploads(Uploads.Chunk(id, conn, payload)))));
      if user !in accounts {
        return Uploads.Drop;
      }
      ApplyReplaces(accounts, user, On(env, OnUploads(Uploads.Chunk(id, conn, payload))));
      var state := accounts[user];
      var uploads := GcUploads(state.uploads, env.at);
      uploads, decision := GovernChunk(uploads, id, conn, payload, env.stamp);
      accounts := accounts[user := state.(uploads := uploads)];
    }

    method FinishUpload(user: string, id: string, conn: Conn, env: Env)
      requires Valid()
      modifies this`accounts, this`calls, this`outcomes
      ensures Valid() && calls == old(calls) + [Call(user, On(env, OnUploads(Uploads.Finish(id, conn))))]
      ensures Did(old(accounts), accounts, user, On(env, OnUploads(Uploads.Finish(id, conn))), OfUploads(Uploads.Done))
    {
      Log(Call(user, On(env, OnUploads(Uploads.Finish(id, conn)))));
      if user !in accounts {
        return;
      }
      var state := accounts[user];
      var uploads := GcUploads(state.uploads, env.at);
      if id in uploads && uploads[id].owner == conn {
        uploads := uploads[id := uploads[id].(finished := true, lastActivity := env.stamp)];
      }
      accounts := accounts[user := state.(uploads := uploads)];
    }

    method ResolveUpload(user: string, id: string, env: Env) returns (owner: Option<Conn>)
      requires Valid()
      modifies this`accounts, this`calls, this`outcomes
      ensures Valid() && calls == old(calls) + [Call(user, On(env, OnUploads(Uploads.Resolve(id))))]
      ensures Did(old(accounts), accounts, user, On(env, OnUploads(Uploads.Resolve(id))), OfUploads(Uploads.Resolved(owner)))
    {
      Log(Call(user, On(env, OnUploads(Uploads.Resolve(id)))));
      if user !in accounts {
        return None;
      }
      var state := accounts[user];
      var uploads := GcUploads(state.uploads, env.at);
      owner := if id in uploads then Some(uploads[id].owner) else None;
      assert id !in uploads ==> uploads - {id} == uploads;
      accounts := accounts[user := state.(uploads := uploads - {id})];
    }

    // -------------------------------------------------------------- downloads

    static method GcDownloads(table: Downloads.Table, now: Instant) returns (kept: Downloads.Table)
      ensures kept == Downloads.Gc(table, now)
    {
      kept := Retain(table, (e: Downloads.Entry) => AsSecs(e.lastActivity, now) < Expiry.UPLOAD_IDLE_TIMEOUT_SECS);
    }

    method RegisterDownload(user: string, id: string, conn: Conn, env: Env)
      returns (r: Result<(), string>)
      requires Valid()
      modifies this`accounts, this`calls, this`outcomes
      ensures Valid() && calls == old(calls) + [Call(user, On(env, OnDownloads(Downloads.Register(id, conn))))]
      ensures Did(old(accounts), accounts, user, On(env, OnDownloads(Downloads.Register(id, conn))),
                  OfDownloads(Downloads.Registered(r)))
    {
      Log(Call(user, On(env, OnDownloads(Downloads.Register(id, conn)))));
      var state := Entry(user);
      var downloads := GcDownloads(state.downloads, env.at);
      accounts := accounts[user := state.(downloads := downloads)];
      if |downloads| >= Downloads.MAX_ACTIVE_DOWNLOADS {
        return Err("too many active downloads");
      }
      downloads := downloads[id := Downloads.Entry(conn, None, 0, env.stamp)];
      accounts := accounts[user := state.(downloads := downloads)];
      return Ok(());
    }

    method NoteDownloadBegin(user: string, id: string, size: nat, env: Env)
      returns (owner: Option<Conn>)
      requires Valid()
      modifies this`accounts, this`calls, this`outcomes
      ensures Valid() && calls == old(calls) + [Call(user, On(env, OnDownloads(Downloads.NoteBegin(id, size))))]
      ensures Did(old(accounts), accounts, user, On(env, OnDownloads(Downloads.NoteBegin(id, size))),
                  OfDownloads(Downloads.Noted(owner)))
    {
      Log(Call(user, On(env, OnDownloads(Downloads.NoteBegin(id, size)))));
      if user !in accounts {
        return None;
      }
      var state := accounts[user];
      var downloads := GcDownloads(state.downloads, env.at);
      accounts := accounts[user := state.(downloads := downloads)];
      if id !in downloads {
        return None;
      }
      var entry := downloads[id].(declared := Some(size), lastActivity := env.stamp);
      accounts := accounts[user := state.(downloads := downloads[id := entry])];
      return Some(entry.owner);
    }

    method RecordDownloadChunk(user: string, id: string, payload: Bytes, env: Env)
      returns (decision: Downloads.ChunkDecision)
      requires Valid()
      modifies this`accounts, this`calls, this`outcomes
      ensures Valid() && calls == old(calls) + [Call(user, On(env, OnDownloads(Downloads.Chunk(id, payload))))]
      ensures Did(old(accounts), accounts, user, On(env, OnDownloads(Downloads.Chunk(id, payload))),
                  OfDownloads(Downloads.Decided(decision)))
    {
      Log(Call(user, On(env, OnDownloads(Downloads.Chunk(id, payload)))));
      if user !in accounts {
        return Downloads.Drop;
      }
      ApplyReplaces(accounts, user, On(env, OnDownloads(Downloads.Chunk(id, payload))));
      var state := accounts[user];
      var downloads := GcDownloads(state.downloads, env.at);
      downloads, decision := GovernDownload(downloads, id, payload, env.stamp);
      accounts := accounts[user := state.(downloads := downloads)];
    }

    method ResolveDownload(user: string, id: string, env: Env) returns (owner: Option<Conn>)
      requires Valid()
      modifies this`accounts, this`calls, this`outcomes
      ensures Valid() && calls == old(calls) + [Call(user, On(env, OnDownloads(Downloads.Resolve(id))))]
      ensures Did(old(accounts), accounts, user, On(env, OnDownloads(Downloads.Resolve(id))),
                  OfDownloads(Downloads.Resolved(owner)))
    {
      Log(Call(user, On(env, OnDownloads(Downloads.Resolve(id)))));
      if user !in accounts {
        return None;
      }
      var state := accounts[user];
      var downloads := GcDownloads(state.downloads, env.at);
      owner := if id in downloads then Some(downloads[id].owner) else None;
      assert id !in downloads ==> downloads - {id} == downloads;
      accounts := accounts[user := state.(downloads := downloads - {id})];
    }

    // -------------------------------------------------------------- supervisor queries

    static method GcSupervisor(table: Supervisor.Table, now: Instant) returns (kept: Supervisor.Table)
      ensures kept == Supervisor.Gc(table, now)
    {
      kept := Retain(table, (e: Supervisor.Entry) => AsSecs(e.created, now) < Supervisor.SUPERVISOR_GC_SECS);
    }

    method BeginSupervisorQuery(user: string, id: string, conn: Conn, env: Env)
      returns (decision: Supervisor.Outcome)
      requires Valid()
      modifies this`accounts, this`calls, this`outcomes
      ensures Valid() && calls == old(calls) + [Call(user, On(env, OnSupervisor(Supervisor.Query(id, conn))))]
      ensures Did(old(accounts), accounts, user, On(env, OnSupervisor(Supervisor.Query(id, conn))), OfSupervisor(decision))
    {
      Log(Call(user, On(env, OnSupervisor(Supervisor.Query(id, conn)))));
      ApplyReplaces(accounts, user, On(env, OnSupervisor(Supervisor.Query(id, conn))));
      var state := Entry(user);
      var pending := GcSupervisor(state.supervisor, env.at);
      pending, decision := GovernQuery(pending, id, conn, env.stamp);
      accounts := accounts[user := state.(supervisor := pending)];
    }

    method ResolveSupervisor(user: string, id: string, reply: Supervisor.Reply, env: Env)
      returns (outcome: Supervisor.Outcome)
      requires Valid()
      modifies this`accounts, this`calls, this`outcomes
      ensures Valid() && calls == old(calls) + [Call(user, On(env, OnSupervisor(Supervisor.Answer(id, reply))))]
      ensures Did(old(accounts), accounts, user, On(env, OnSupervisor(Supervisor.Answer(id, reply))), OfSupervisor(outcome))
    {
      Log(Call(user, On(env, OnSupervisor(Supervisor.Answer(id, reply)))));
      if user !in accounts {
        return Supervisor.Unknown;
      }
      var state := accounts[user];
      var pending := GcSupervisor(state.supervisor, env.at);
      accounts := accounts[user := state.(supervisor := pending)];
      if id !in pending {
        return Supervisor.Unknown;
      }
      if pending[id].owner !in env.closed {
        accounts := accounts[user := state.(supervisor := pending - {id})];
        return Supervisor.Delivered(pending[id].owner);
      }
      var entry := pending[id].(stored := Some(Supervisor.Serialized(reply)));
      accounts := accounts[user := state.(supervisor := pending[id := entry])];
      return Supervisor.Stored;
    }

    // -------------------------------------------------------------- what the object keeps

    /** Whatever was called, every table of every account is within its cap. */
    lemma WithinCapsAlways(user: string)
      requires Valid()
      ensures WithinCaps(Entry(user))
    {
      BrokerBounds(calls, user);
    }

    /** The connections of an account are what its own calls made of them. */
    lemma PresenceIsRun(user: string)
      requires Valid()
      ensures Entry(user).presence == Presence.Run(PresenceOps(Only(calls, user)))
    {
      AccountIndependence(calls, user);
      PresenceProjects(Only(calls, user));
    }

    /** A broadcast now would address one copy to each client of the account and none elsewhere. */
    lemma OneCopyEach(user: string, payload: Presence.Payload, conn: Conn)
      requires Valid()
      ensures
        var s := Entry(user).presence;
        Presence.Copies(Presence.Sent(s, Presence.Broadcast(payload)), conn) == if conn in Presence.Conns(s.clients) then 1 else 0
    {
      PresenceIsRun(user);
      Presence.SingleDelivery(PresenceOps(Only(calls, user)), payload, conn);
    }

    /** Every registered client has last been told what the desktop slot is now, or never saw a desktop. */
    lemma ClientsInformed(user: string, conn: Conn)
      requires Valid() && conn in Presence.Conns(Entry(user).presence.clients)
      ensures Presence.Informed(Entry(user).presence, conn, Presence.HeardBy(PresenceOps(Only(calls, user)), conn))
    {
      PresenceIsRun(user);
      Presence.StatusAgreement(PresenceOps(Only(calls, user)), conn);
    }

    /** Replay requests that were kept are the ones selected so far, then the queue. */
    lemma ReplaysInOrder(user: string)
      requires Valid()
      ensures
        var r := Presence.ReplayHistory(PresenceOps(Only(calls, user)));
        r.kept == r.selected + Entry(user).presence.queue && (r.orderly ==> r.selected <= r.requested)
    {
      PresenceIsRun(user);
      Presence.ReplayFifo(PresenceOps(Only(calls, user)));
    }

    /** If the clock never went back, every download decision was the on-time one. */
    lemma DownloadsOnTime(i: nat)
      requires Valid() && Timed(Events(calls)) && i < |calls| && calls[i].event.op.OnDownloads?
      ensures
        var part := DownloadEvents(Only(calls[..i + 1], calls[i].user));
        && Timed(part) && part != []
        && outcomes[i] == OfDownloads(Expiry.ReferenceFinal(Downloads.OnTime, part))
    {
      PrefixUpTo(i);
      DownloadCallOnTime(calls[..i + 1]);
    }

    /** So was every supervisor decision. */
    lemma QueriesOnTime(i: nat)
      requires Valid() && Timed(Events(calls)) && i < |calls| && calls[i].event.op.OnSupervisor?
      ensures
        var part := SupervisorEvents(Only(calls[..i + 1], calls[i].user));
        && Timed(part) && part != []
        && outcomes[i] == OfSupervisor(Expiry.ReferenceFinal(Supervisor.OnTime, part))
    {
      PrefixUpTo(i);
      QueryCallOnTime(calls[..i + 1]);
    }

    /** And every upload decision, if and only if it did not take the buffer of a stale upload. */
    lemma UploadsOnTimeExactly(i: nat)
      requires Valid() && Timed(Events(calls)) && i < |calls| && calls[i].event.op.OnUploads?
      ensures
        var part := UploadEvents(Only(calls[..i + 1], calls[i].user));
        var before := View(Find(BrokerRun(calls[..i]), calls[i].user)).uploads;
        && Timed(part) && part != []
        && (outcomes[i] == OfUploads(Expiry.ReferenceFinal(Uploads.OnTime, part))
            <==> !Uploads.TakesStale(before, Same(calls[i].event, calls[i].event.op.uploads)))
    {
      PrefixUpTo(i);
      UploadCallExactly(calls[..i + 1]);
    }

    lemma PrefixUpTo(i: nat)
      requires Valid() && Timed(Events(calls)) && i < |calls|
      ensures Front(calls[..i + 1]) == calls[..i] && Last(calls[..i + 1]) == calls[i]
      ensures Timed(Events(calls[..i + 1]))
      ensures outcomes[i] == Answer(BrokerRun(calls[..i]), calls[i])
    {
      RecordedAt(calls, outcomes, i);
      assert Events(calls[..i + 1]) == Events(calls)[..i + 1];
    }

    /** If connections that are gone stay gone, a parked reply belongs to one of them. */
    lemma ParkedOwnersAreGone(user: string, id: string)
      requires Valid() && ClosedGrows(Events(calls))
      requires id in Entry(user).supervisor && Entry(user).supervisor[id].stored.Some?
      ensures calls != [] && Entry(user).supervisor[id].owner in Last(calls).event.closed
    {
      ParkedMeansGone(calls, user, id);
    }
  }
}
