/**
 * One account of the broker as the product of its tables, and the broker as a map of accounts
 * (src/broker.rs).  Every operation holds the lock on the whole map, so it is one step.
 */
module Account {
  import opened Common
  import Expiry
  import Presence
  import Uploads
  import Downloads
  import Supervisor

  datatype State = State(
    presence: Presence.State,
    uploads: Uploads.Table,
    downloads: Downloads.Table,
    supervisor: Supervisor.Table)

  const Empty := State(Presence.Empty, map[], map[], map[])

  datatype Op =
    | OnPresence(presence: Presence.Op)
    | OnUploads(uploads: Uploads.Op)
    | OnDownloads(downloads: Downloads.Op)
    | OnSupervisor(supervisor: Supervisor.Op)
    | AddPendingDevice

  datatype Outcome =
    | OfPresence(presence: Presence.Outcome, sent: seq<Presence.Addressed>)
    | OfUploads(uploads: Uploads.Outcome)
    | OfDownloads(downloads: Downloads.Outcome)
    | OfSupervisor(supervisor: Supervisor.Outcome)
    | Added

  /** The same environment with another operation. */
  function Same<T>(e: Event<Op>, op: T): Event<T> {
    Event(e.at, e.stamp, e.closed, op)
  }

  /** The connection whose uploads an operation drops, if it is a disconnect. */
  function DropsUploadsOf(op: Op): Option<Conn> {
    if op.OnPresence? && op.presence.UnregisterDesktop? then Some(op.presence.conn)
    else DropsDownloadsOf(op)
  }

  function DropsDownloadsOf(op: Op): Option<Conn> {
    if op.OnPresence? && op.presence.UnregisterClient? then Some(op.presence.conn) else None
  }

  /** What an operation means to each table: nothing, or one operation of that table. */
  function ToUploads(op: Op): Option<Uploads.Op> {
    if op.OnUploads? then Some(op.uploads)
    else if DropsUploadsOf(op).Some? then Some(Uploads.DropOwner(DropsUploadsOf(op).value))
    else None
  }

  function ToDownloads(op: Op): Option<Downloads.Op> {
    if op.OnDownloads? then Some(op.downloads)
    else if DropsDownloadsOf(op).Some? then Some(Downloads.DropOwner(DropsDownloadsOf(op).value))
    else None
  }

  function Next(s: State, e: Event<Op>): State {
    State(
      if e.op.OnPresence? then Presence.Next(s.presence, e.op.presence) else s.presence,
      if ToUploads(e.op).Some? then Uploads.Step(s.uploads, Same(e, ToUploads(e.op).value)).0 else s.uploads,
      if ToDownloads(e.op).Some? then Downloads.Step(s.downloads, Same(e, ToDownloads(e.op).value)).0 else s.downloads,
      if e.op.OnSupervisor? then Supervisor.Step(s.supervisor, Same(e, e.op.supervisor)).0 else s.supervisor)
  }

  function OutcomeOf(s: State, e: Event<Op>): Outcome {
    match e.op
    case OnPresence(op) => OfPresence(Presence.Returned(s.presence, op), Presence.Sent(s.presence, op))
    case OnUploads(op) => OfUploads(Uploads.Step(s.uploads, Same(e, op)).1)
    case OnDownloads(op) => OfDownloads(Downloads.Step(s.downloads, Same(e, op)).1)
    case OnSupervisor(op) => OfSupervisor(Supervisor.Step(s.supervisor, Same(e, op)).1)
    case AddPendingDevice => Added
  }

  /** The operations that create an account that does not exist yet (`or_insert_with`). */
  predicate Creates(op: Op) {
    match op
    case OnPresence(p) => p.RegisterDesktop? || p.RegisterClient?
    case OnUploads(u) => u.Begin?
    case OnDownloads(d) => d.Register?
    case OnSupervisor(q) => q.Query?
    case AddPendingDevice => true
  }

  /** An account that was never created behaves as an empty one, except that it stays absent. */
  function View(a: Option<State>): State {
    if a.Some? then a.value else Empty
  }

  function Step(a: Option<State>, e: Event<Op>): Option<State> {
    if a.None? && !Creates(e.op) then None else Some(Next(View(a), e))
  }

  function Run(evs: seq<Event<Op>>): Option<State> {
    if evs == [] then None else Step(Run(Front(evs)), Last(evs))
  }

  // ---------------------------------------------------------------- the account is its tables

  function PresenceOps(evs: seq<Event<Op>>): seq<Presence.Op> {
    if evs == [] then []
    else
      var op := Last(evs).op;
      var past := PresenceOps(Front(evs));
      if op.OnPresence? && Run(evs).Some? then past + [op.presence] else past
  }

  function UploadEvents(evs: seq<Event<Op>>): seq<Event<Uploads.Op>> {
    if evs == [] then []
    else
      var op := ToUploads(Last(evs).op);
      var past := UploadEvents(Front(evs));
      if op.Some? then past + [Same(Last(evs), op.value)] else past
  }

  function DownloadEvents(evs: seq<Event<Op>>): seq<Event<Downloads.Op>> {
    if evs == [] then []
    else
      var op := ToDownloads(Last(evs).op);
      var past := DownloadEvents(Front(evs));
      if op.Some? then past + [Same(Last(evs), op.value)] else past
  }

  function SupervisorEvents(evs: seq<Event<Op>>): seq<Event<Supervisor.Op>> {
    if evs == [] then []
    else
      var op := Last(evs).op;
      var past := SupervisorEvents(Front(evs));
      if op.OnSupervisor? then past + [Same(Last(evs), op.supervisor)] else past
  }

  /**
   * Which events each table sees, and with which clock readings and closed connections: its own
   * operations, and the drop of a connection that leaves, by uploads of both kinds of
   * connection, by downloads of clients only.
   */
  lemma EventsExactly(evs: seq<Event<Op>>)
    requires evs != []
    ensures
      var past, e := Front(evs), Last(evs);
      && (e.op.OnUploads? ==> UploadEvents(evs) == UploadEvents(past) + [Event(e.at, e.stamp, e.closed, e.op.uploads)])
      && (e.op.OnDownloads? ==> DownloadEvents(evs) == DownloadEvents(past) + [Event(e.at, e.stamp, e.closed, e.op.downloads)])
      && (e.op.OnSupervisor? ==> SupervisorEvents(evs) == SupervisorEvents(past) + [Event(e.at, e.stamp, e.closed, e.op.supervisor)])
      && (!e.op.OnUploads? && !e.op.OnPresence? ==> UploadEvents(evs) == UploadEvents(past))
      && (!e.op.OnDownloads? && !e.op.OnPresence? ==> DownloadEvents(evs) == DownloadEvents(past))
      && (!e.op.OnSupervisor? ==> SupervisorEvents(evs) == SupervisorEvents(past))
    ensures Last(evs).op.OnPresence? ==>
      var past, e, op := Front(evs), Last(evs), Last(evs).op.presence;
      && UploadEvents(evs) == UploadEvents(past)
         + (if op.UnregisterClient? || op.UnregisterDesktop? then [Event(e.at, e.stamp, e.closed, Uploads.DropOwner(op.conn))] else [])
      && DownloadEvents(evs) == DownloadEvents(past)
         + (if op.UnregisterClient? then [Event(e.at, e.stamp, e.closed, Downloads.DropOwner(op.conn))] else [])
  {
  }

  /** A table that an account never created is the table of an empty account. */
  lemma AbsentIsEmpty(e: Event<Op>)
    requires !Creates(e.op)
    ensures Next(Empty, e).uploads == Empty.uploads
    ensures Next(Empty, e).downloads == Empty.downloads
    ensures Next(Empty, e).supervisor == Empty.supervisor
  {
  }

  lemma {:induction false} PresenceProjects(evs: seq<Event<Op>>)
    ensures View(Run(evs)).presence == Presence.Run(PresenceOps(evs))
  {
    if evs != [] {
      PresenceProjects(Front(evs));
      var past := PresenceOps(Front(evs));
      if Last(evs).op.OnPresence? && Run(evs).Some? {
        assert Front(past + [Last(evs).op.presence]) == past;
      }
    }
  }

  /** An absent account projects as an empty one, which is what non-creating steps leave it. */
  lemma ViewSteps(a: Option<State>, e: Event<Op>)
    ensures View(Step(a, e)).uploads == Next(View(a), e).uploads
    ensures View(Step(a, e)).downloads == Next(View(a), e).downloads
    ensures View(Step(a, e)).supervisor == Next(View(a), e).supervisor
  {
    if a.None? && !Creates(e.op) {
      AbsentIsEmpty(e);
    }
  }

  /**
   * An absent account takes every step as an empty one does, whole state and all, except for a
   * list request: that one queues nothing.
   */
  lemma AbsentActsEmptyExactly(a: Option<State>, e: Event<Op>)
    ensures View(Step(a, e)) == Next(View(a), e)
       <==> !(a.None? && e.op.OnPresence? && e.op.presence.NoteListRequest?)
  {
    ViewSteps(a, e);
    if e.op.OnPresence? && e.op.presence.NoteListRequest? {
      assert |Presence.Next(Presence.Empty, e.op.presence).queue| == 1;
    }
  }

  lemma {:induction false} UploadsProject(evs: seq<Event<Op>>)
    ensures View(Run(evs)).uploads == Uploads.Run(UploadEvents(evs))
  {
    if evs != [] {
      UploadsProject(Front(evs));
      ViewSteps(Run(Front(evs)), Last(evs));
      var past := UploadEvents(Front(evs));
      assert forall e :: Front(past + [e]) == past;
    }
  }

  lemma {:induction false} DownloadsProject(evs: seq<Event<Op>>)
    ensures View(Run(evs)).downloads == Downloads.Run(DownloadEvents(evs))
  {
    if evs != [] {
      DownloadsProject(Front(evs));
      ViewSteps(Run(Front(evs)), Last(evs));
      var past := DownloadEvents(Front(evs));
      assert forall e :: Front(past + [e]) == past;
    }
  }

  lemma {:induction false} SupervisorProjects(evs: seq<Event<Op>>)
    ensures View(Run(evs)).supervisor == Supervisor.Run(SupervisorEvents(evs))
  {
    if evs != [] {
      SupervisorProjects(Front(evs));
      ViewSteps(Run(Front(evs)), Last(evs));
      var past := SupervisorEvents(Front(evs));
      assert forall e :: Front(past + [e]) == past;
    }
  }

  /** The answer of an account is the answer its table gives on that table's own events. */
  lemma AnswersProject(evs: seq<Event<Op>>)
    requires evs != []
    ensures
      var answer, op := OutcomeOf(View(Run(Front(evs))), Last(evs)), Last(evs).op;
      && (op.OnUploads? ==> UploadEvents(evs) != [] && answer == OfUploads(Uploads.Final(UploadEvents(evs))))
      && (op.OnDownloads? ==> DownloadEvents(evs) != [] && answer == OfDownloads(Downloads.Final(DownloadEvents(evs))))
      && (op.OnSupervisor? ==> SupervisorEvents(evs) != [] && answer == OfSupervisor(Supervisor.Final(SupervisorEvents(evs))))
  {
    EventsExactly(evs);
    match Last(evs).op
    case OnUploads(_) => UploadsProject(Front(evs)); assert Front(UploadEvents(evs)) == UploadEvents(Front(evs));
    case OnDownloads(_) => DownloadsProject(Front(evs)); assert Front(DownloadEvents(evs)) == DownloadEvents(Front(evs));
    case OnSupervisor(_) => SupervisorProjects(Front(evs)); assert Front(SupervisorEvents(evs)) == SupervisorEvents(Front(evs));
    case _ =>
  }

  // ---------------------------------------------------------------- what spans the tables

  /** An account exists once something that creates one was done: a registration, an upload, a download, a query, a pending device. */
  lemma {:induction false} ExistsExactly(evs: seq<Event<Op>>)
    ensures Run(evs).Some? <==> exists i :: 0 <= i < |evs| && Creating(evs[i].op)
  {
    if evs != [] {
      ExistsExactly(Front(evs));
      if Creating(Last(evs).op) {
        assert Creating(evs[|evs| - 1].op);
      }
      if i :| 0 <= i < |evs| && Creating(evs[i].op) && i < |Front(evs)| {
        assert Front(evs)[i] == evs[i];
      }
    }
  }

  predicate Creating(op: Op) {
    || op == AddPendingDevice
    || (op.OnPresence? && (op.presence.RegisterDesktop? || op.presence.RegisterClient?))
    || (op.OnUploads? && op.uploads.Begin?)
    || (op.OnDownloads? && op.downloads.Register?)
    || (op.OnSupervisor? && op.supervisor.Query?)
  }

  /** The connection that leaves with a step, as a client or as a desktop. */
  predicate Leaves(op: Op, conn: Conn) {
    op == OnPresence(Presence.UnregisterClient(conn)) || op == OnPresence(Presence.UnregisterDesktop(conn))
  }

  /**
   * A step that is not about uploads ends exactly the uploads begun by a connection that leaves
   * with it, as a client or as a desktop, and changes no other.
   */
  lemma UploadsOfTheGone(evs: seq<Event<Op>>, id: string)
    requires evs != [] && !Last(evs).op.OnUploads?
    ensures
      var before, after := View(Run(Front(evs))).uploads, View(Run(evs)).uploads;
      && (id in after <==> id in before && !Leaves(Last(evs).op, Uploads.LifeOf(UploadEvents(Front(evs)), id).conn))
      && (id in after ==> after[id] == before[id])
  {
    ViewSteps(Run(Front(evs)), Last(evs));
    UploadsProject(Front(evs));
    Uploads.LifeCycle(UploadEvents(Front(evs)), id);
  }

  /** The same for downloads, which a leaving client ends and a leaving desktop does not. */
  lemma DownloadsOfTheGone(evs: seq<Event<Op>>, id: string)
    requires evs != [] && !Last(evs).op.OnDownloads?
    ensures
      var before, after := View(Run(Front(evs))).downloads, View(Run(evs)).downloads;
      var owner := Downloads.StreamOf(DownloadEvents(Front(evs)), id).conn;
      && (id in after <==> id in before && Last(evs).op != OnPresence(Presence.UnregisterClient(owner)))
      && (id in after ==> after[id] == before[id])
  {
    ViewSteps(Run(Front(evs)), Last(evs));
    DownloadsProject(Front(evs));
    Downloads.DownloadBudget(DownloadEvents(Front(evs)), id);
  }

  predicate WithinCaps(s: State) {
    && |s.presence.clients| <= 10 && Presence.Distinct(s.presence.clients)
    && |s.presence.queue| <= 64
    && |s.uploads| <= 8
    && |s.downloads| <= 4
    && |s.supervisor| <= 8
  }

  /** In every reachable state every table of an account is within its cap. */
  lemma ReachableBounds(evs: seq<Event<Op>>)
    ensures WithinCaps(View(Run(evs)))
  {
    PresenceProjects(evs);
    Presence.ReachableBounds(PresenceOps(evs));
    UploadsProject(evs);
    Uploads.Bounded(UploadEvents(evs));
    DownloadsProject(evs);
    Downloads.Bounded(DownloadEvents(evs));
    SupervisorProjects(evs);
    Supervisor.Bounded(SupervisorEvents(evs));
  }

  // ---------------------------------------------------------------- expiry, for whole accounts

  /** Events that happen in order, none stamped after the end of the run they came from. */
  predicate Within<T>(part: seq<Event<T>>, evs: seq<Event<Op>>) {
    && Timed(part)
    && (part != [] ==> evs != [])
    && (forall i :: 0 <= i < |part| ==> part[i].stamp <= Last(evs).stamp)
  }

  lemma WithinStays<T>(part: seq<Event<T>>, evs: seq<Event<Op>>)
    requires evs != [] && Timed(evs) && Within(part, Front(evs))
    ensures Within(part, evs)
    ensures forall i :: 0 <= i < |part| ==> part[i].stamp <= Last(evs).at
  {
    if part != [] {
      assert evs[|evs| - 2].stamp <= evs[|evs| - 1].at <= evs[|evs| - 1].stamp;
      assert Last(Front(evs)) == evs[|evs| - 2];
    }
  }

  lemma WithinGrows<T>(part: seq<Event<T>>, evs: seq<Event<Op>>, op: T)
    requires evs != [] && Timed(evs) && Within(part, Front(evs))
    ensures Within(part + [Same(Last(evs), op)], evs)
  {
    WithinStays(part, evs);
    assert evs[|evs| - 1].at <= evs[|evs| - 1].stamp;
  }

  lemma {:induction false} DownloadEventsTimed(evs: seq<Event<Op>>)
    requires Timed(evs)
    ensures Within(DownloadEvents(evs), evs)
  {
    if evs != [] {
      DownloadEventsTimed(Front(evs));
      WithinStays(DownloadEvents(Front(evs)), evs);
      var op := ToDownloads(Last(evs).op);
      if op.Some? {
        WithinGrows(DownloadEvents(Front(evs)), evs, op.value);
      }
    }
  }

  lemma {:induction false} SupervisorEventsTimed(evs: seq<Event<Op>>)
    requires Timed(evs)
    ensures Within(SupervisorEvents(evs), evs)
  {
    if evs != [] {
      SupervisorEventsTimed(Front(evs));
      WithinStays(SupervisorEvents(Front(evs)), evs);
      if Last(evs).op.OnSupervisor? {
        WithinGrows(SupervisorEvents(Front(evs)), evs, Last(evs).op.supervisor);
      }
    }
  }

  lemma {:induction false} UploadEventsTimed(evs: seq<Event<Op>>)
    requires Timed(evs)
    ensures Within(UploadEvents(evs), evs)
  {
    if evs != [] {
      UploadEventsTimed(Front(evs));
      WithinStays(UploadEvents(Front(evs)), evs);
      var op := ToUploads(Last(evs).op);
      if op.Some? {
        WithinGrows(UploadEvents(Front(evs)), evs, op.value);
      }
    }
  }

  /**
   * On every timed run of an account, whatever else happens in it, each upload decision is the
   * one of a table that drops an upload the moment it has been idle for 60 seconds, if and only
   * if it does not take the buffer of a stale upload.
   */
  lemma UploadsExpireExactly(evs: seq<Event<Op>>)
    requires evs != [] && Timed(evs) && Last(evs).op.OnUploads?
    ensures Timed(UploadEvents(evs)) && UploadEvents(evs) != []
    ensures OutcomeOf(View(Run(Front(evs))), Last(evs)) == OfUploads(Expiry.ReferenceFinal(Uploads.OnTime, UploadEvents(evs)))
       <==> !Uploads.TakesStale(View(Run(Front(evs))).uploads, Same(Last(evs), Last(evs).op.uploads))
  {
    UploadEventsTimed(evs);
    UploadsProject(Front(evs));
    var part := UploadEvents(evs);
    assert Front(part) == UploadEvents(Front(evs));
    Uploads.LazyAgreesWithEager(part);
  }

  /**
   * On every timed run of an account, whatever else happens in it, each download decision is
   * the one of a table that drops a download the moment it has been idle for 60 seconds.
   */
  lemma DownloadsExpireOnTime(evs: seq<Event<Op>>)
    requires evs != [] && Timed(evs) && Last(evs).op.OnDownloads?
    ensures Timed(DownloadEvents(evs)) && DownloadEvents(evs) != []
    ensures OutcomeOf(View(Run(Front(evs))), Last(evs)) == OfDownloads(Expiry.ReferenceFinal(Downloads.OnTime, DownloadEvents(evs)))
  {
    DownloadEventsTimed(evs);
    DownloadsProject(Front(evs));
    var part := DownloadEvents(evs);
    assert Front(part) == DownloadEvents(Front(evs));
    Downloads.LazyRefinesEager(part);
  }

  /** The same for supervisor queries and their 300 seconds of age. */
  lemma QueriesExpireOnTime(evs: seq<Event<Op>>)
    requires evs != [] && Timed(evs) && Last(evs).op.OnSupervisor?
    ensures Timed(SupervisorEvents(evs)) && SupervisorEvents(evs) != []
    ensures OutcomeOf(View(Run(Front(evs))), Last(evs)) == OfSupervisor(Expiry.ReferenceFinal(Supervisor.OnTime, SupervisorEvents(evs)))
  {
    SupervisorEventsTimed(evs);
    SupervisorProjects(Front(evs));
    var part := SupervisorEvents(evs);
    assert Front(part) == SupervisorEvents(Front(evs));
    Supervisor.LazyRefinesEager(part);
  }

  // ---------------------------------------------------------------- many accounts

  type Accounts = map<string, State>

  /** A step of the broker names the account it is for. */
  datatype Call = Call(user: string, event: Event<Op>)

  function Find(accounts: Accounts, user: string): Option<State> {
    if user in accounts then Some(accounts[user]) else None
  }

  function Apply(accounts: Accounts, call: Call): Accounts {
    var next := Step(Find(accounts, call.user), call.event);
    if next.Some? then accounts[call.user := next.value] else accounts
  }

  function Answer(accounts: Accounts, call: Call): Outcome {
    OutcomeOf(View(Find(accounts, call.user)), call.event)
  }

  function BrokerRun(calls: seq<Call>): Accounts {
    if calls == [] then map[] else Apply(BrokerRun(Front(calls)), Last(calls))
  }

  /** The steps of one account, in order. */
  function Only(calls: seq<Call>, user: string): seq<Event<Op>> {
    if calls == [] then []
    else
      var past := Only(Front(calls), user);
      if Last(calls).user == user then past + [Last(calls).event] else past
  }

  lemma ApplyFinds(accounts: Accounts, call: Call, user: string)
    ensures Find(Apply(accounts, call), user)
         == if call.user == user then Step(Find(accounts, user), call.event) else Find(accounts, user)
  {
  }

  /** Running every account's steps leaves each account as if only its own steps had run. */
  lemma {:induction false} AccountIndependence(calls: seq<Call>, user: string)
    ensures Find(BrokerRun(calls), user) == Run(Only(calls, user))
  {
    if calls != [] {
      AccountIndependence(Front(calls), user);
      ApplyFinds(BrokerRun(Front(calls)), Last(calls), user);
      RunExtends(Only(Front(calls), user), Last(calls).event);
    }
  }

  lemma RunExtends(evs: seq<Event<Op>>, e: Event<Op>)
    ensures Run(evs + [e]) == Step(Run(evs), e)
  {
    assert Front(evs + [e]) == evs;
  }

  /** In every reachable state of the broker every table of every account is within its cap. */
  lemma BrokerBounds(calls: seq<Call>, user: string)
    ensures WithinCaps(View(Find(BrokerRun(calls), user)))
  {
    AccountIndependence(calls, user);
    ReachableBounds(Only(calls, user));
  }

  /** And so does every decision: it is the one the account alone would have made. */
  lemma DecisionIndependence(calls: seq<Call>)
    requires calls != []
    ensures Answer(BrokerRun(Front(calls)), Last(calls))
         == OutcomeOf(View(Run(Only(Front(calls), Last(calls).user))), Last(calls).event)
  {
    AccountIndependence(Front(calls), Last(calls).user);
  }

  // ---------------------------------------------------------------- timed broker runs

  function Events(calls: seq<Call>): (evs: seq<Event<Op>>)
    ensures |evs| == |calls|
  {
    seq(|calls|, i requires 0 <= i < |calls| => calls[i].event)
  }

  lemma EventsFront(calls: seq<Call>)
    requires calls != []
    ensures Front(Events(calls)) == Events(Front(calls)) && Last(Events(calls)) == Last(calls).event
  {
  }

  /** The steps of one account are in order if the steps of all of them are. */
  lemma {:induction false} OnlyTimed(calls: seq<Call>, user: string)
    requires Timed(Events(calls))
    ensures Within(Only(calls, user), Events(calls))
  {
    if calls != [] {
      EventsFront(calls);
      OnlyTimed(Front(calls), user);
      WithinStays(Only(Front(calls), user), Events(calls));
      WithinGrows(Only(Front(calls), user), Events(calls), Last(calls).event.op);
    }
  }

  lemma OnlyLast(calls: seq<Call>)
    requires calls != []
    ensures
      var evs := Only(calls, Last(calls).user);
      evs != [] && Last(evs) == Last(calls).event && Front(evs) == Only(Front(calls), Last(calls).user)
  {
  }

  /** Every download decision of a timed broker run is the on-time decision for its account alone. */
  lemma DownloadCallOnTime(calls: seq<Call>)
    requires calls != [] && Timed(Events(calls)) && Last(calls).event.op.OnDownloads?
    ensures
      var part := DownloadEvents(Only(calls, Last(calls).user));
      && Timed(part) && part != []
      && Answer(BrokerRun(Front(calls)), Last(calls)) == OfDownloads(Expiry.ReferenceFinal(Downloads.OnTime, part))
  {
    OnlyTimed(calls, Last(calls).user);
    OnlyLast(calls);
    DecisionIndependence(calls);
    DownloadsExpireOnTime(Only(calls, Last(calls).user));
  }

  /** The same for every supervisor decision. */
  lemma QueryCallOnTime(calls: seq<Call>)
    requires calls != [] && Timed(Events(calls)) && Last(calls).event.op.OnSupervisor?
    ensures
      var part := SupervisorEvents(Only(calls, Last(calls).user));
      && Timed(part) && part != []
      && Answer(BrokerRun(Front(calls)), Last(calls)) == OfSupervisor(Expiry.ReferenceFinal(Supervisor.OnTime, part))
  {
    OnlyTimed(calls, Last(calls).user);
    OnlyLast(calls);
    DecisionIndependence(calls);
    QueriesExpireOnTime(Only(calls, Last(calls).user));
  }

  /** And for every upload decision, unless it takes the buffer of a stale upload. */
  lemma UploadCallExactly(calls: seq<Call>)
    requires calls != [] && Timed(Events(calls)) && Last(calls).event.op.OnUploads?
    ensures
      var part := UploadEvents(Only(calls, Last(calls).user));
      var before := View(Find(BrokerRun(Front(calls)), Last(calls).user)).uploads;
      && Timed(part) && part != []
      && (Answer(BrokerRun(Front(calls)), Last(calls)) == OfUploads(Expiry.ReferenceFinal(Uploads.OnTime, part))
          <==> !Uploads.TakesStale(before, Same(Last(calls).event, Last(calls).event.op.uploads)))
  {
    OnlyTimed(calls, Last(calls).user);
    OnlyLast(calls);
    DecisionIndependence(calls);
    AccountIndependence(Front(calls), Last(calls).user);
    UploadsExpireExactly(Only(calls, Last(calls).user));
  }

  // ---------------------------------------------------------------- parked replies of whole brokers

  /** Closed sets that grow, none of them larger than the last one of the run they came from. */
  predicate ClosedWithin<T>(part: seq<Event<T>>, evs: seq<Event<Op>>) {
    && ClosedGrows(part)
    && (part != [] ==> evs != [])
    && (forall i :: 0 <= i < |part| ==> part[i].closed <= Last(evs).closed)
  }

  lemma ClosedStays<T>(part: seq<Event<T>>, evs: seq<Event<Op>>)
    requires evs != [] && ClosedGrows(evs) && ClosedWithin(part, Front(evs))
    ensures ClosedWithin(part, evs)
  {
    if part != [] {
      assert evs[|evs| - 2].closed <= evs[|evs| - 1].closed;
      assert Last(Front(evs)) == evs[|evs| - 2];
    }
  }

  lemma ClosedAppends<T>(part: seq<Event<T>>, evs: seq<Event<Op>>, op: T)
    requires evs != [] && ClosedGrows(evs) && ClosedWithin(part, Front(evs))
    ensures ClosedWithin(part + [Same(Last(evs), op)], evs)
  {
    ClosedStays(part, evs);
  }

  lemma {:induction false} OnlyClosed(calls: seq<Call>, user: string)
    requires ClosedGrows(Events(calls))
    ensures ClosedWithin(Only(calls, user), Events(calls))
  {
    if calls != [] {
      EventsFront(calls);
      OnlyClosed(Front(calls), user);
      ClosedStays(Only(Front(calls), user), Events(calls));
      ClosedAppends(Only(Front(calls), user), Events(calls), Last(calls).event.op);
    }
  }

  lemma {:induction false} SupervisorEventsClosed(evs: seq<Event<Op>>)
    requires ClosedGrows(evs)
    ensures ClosedWithin(SupervisorEvents(evs), evs)
  {
    if evs != [] {
      SupervisorEventsClosed(Front(evs));
      ClosedStays(SupervisorEvents(Front(evs)), evs);
      if Last(evs).op.OnSupervisor? {
        ClosedAppends(SupervisorEvents(Front(evs)), evs, Last(evs).op.supervisor);
      }
    }
  }

  /** In every reachable state of the broker a parked reply belongs to a connection that is gone. */
  lemma ParkedMeansGone(calls: seq<Call>, user: string, id: string)
    requires ClosedGrows(Events(calls))
    ensures
      var pending := View(Find(BrokerRun(calls), user)).supervisor;
      id in pending && pending[id].stored.Some? ==> calls != [] && pending[id].owner in Last(calls).event.closed
  {
    var evs := Only(calls, user);
    OnlyClosed(calls, user);
    SupervisorEventsClosed(evs);
    AccountIndependence(calls, user);
    SupervisorProjects(evs);
    Supervisor.ParkedMeansGone(SupervisorEvents(evs), id);
    if calls != [] {
      EventsFront(calls);
    }
  }
}
