# The relay's connection broker, in Dafny

The relay joins one desktop and many clients of an account over WebSockets. This project models
the broker that routes between them, the outbound channel of each connection, the message
handlers that make several broker calls in a row, the binary frame codec and the two rate
limiters, and proves what they keep on every run.

`dafny verify dfyconfig.toml` checks the whole project.

## How the model is built

- **Time** is a monotonic clock in nanoseconds. A broker operation reads it once to sweep and once
  more to stamp an entry; both readings are inputs of the step (`Common.Event`). Whole-second
  truncation (`as_secs`) is modelled as the code does it.
- **Connections** are numbers, standing for the identity of a connection's byte counter
  (`same_conn`). The connections whose receiver is gone are an input of each step.
- **Steps and runs.** A broker operation holds one lock and is one atomic step. Each table is a
  function from a table and an operation to a table and an outcome; a run is any sequence of
  steps, and theorems are about all runs. `Account` puts the tables of one account together,
  proves that each table of an account run is a run of that table, and that accounts do not
  influence each other. The class `Broker.Broker` has the source's methods, written imperatively
  over an account map changed in place, and each is proved to be exactly that step. The object
  remembers its calls with the clock readings and closed connections of each; its account map is
  always the run of those calls and its outbox what they sent, so caps, on-time expiry, parked
  replies, status agreement and replay order are theorems about the object itself.
- **"Per upload"** and the like mean "since the latest accepted begin (or registration) of the id",
  computed from the history, because ids are reused.
- **Answers.** Beside what holds on every run, each table has theorems that say for every operation
  exactly when it gives which answer, in terms of the history alone (`BeginAnswers`,
  `QueryAnswers`, `JoinAnswers` and the like), with the source's numbers written out.
- **Concurrency.** `Channel` takes every atomic access of a connection's channel as a step of its
  own (any number of control sends, of deliveries of live output and of nudge tasks, one writer);
  `BugReports` and `ReplayHandlers` let the broker calls and sends of different connections
  interleave inside their handlers, and `LoginOverlap` the limiter calls of different logins.
- **The counter** of queued bytes is a 64-bit word that wraps. The one physical fact used is that
  messages in memory at the same time are together smaller than the address space.

| file | component |
|---|---|
| `Common.dfy`, `Expiry.dfy` | shared vocabulary; lazy sweeping against a table that expires on time |
| `Uploads.dfy`, `Downloads.dfy`, `Supervisor.dfy` | the three governed tables |
| `Presence.dfy` | desktop slot, clients, status messages, replay routing |
| `Account.dfy`, `Broker.dfy` | whole accounts, many accounts, the broker object |
| `Channel.dfy`, `Connections.dfy` | the outbound channel under interleaving, and as an object |
| `BugReports.dfy`, `Screenshots.dfy` | bug-report handlers across broker calls; which screenshots are persisted, told from the events |
| `ReplayHandlers.dfy` | replay handlers across broker calls, with the sends and broadcasts they hold |
| `AuthLimiter.dfy`, `LoginOverlap.dfy`, `ConnectionLimiter.dfy` | the two rate limiters, and logins that overlap |
| `ConnectionCap.dfy` | the cap on connections in all |
| `Frames.dfy`, `FileFrames.dfy` | the binary frame codec and UTF-8; file chunks as frames |

## Where the code and its intent part

- `take_bug_report_buffer` and `mark_bug_report_upload` do not sweep, so an upload that is already
  stale can still be persisted. `Uploads.LazyAgreesWithEager` states exactly when the answer
  differs from that of a table that expires on time, and `Uploads.StaleTakeExists` gives a run.
- `build_binary_frame` cuts a long id at 36 bytes even inside a character, and the frame is then
  refused by `parse_binary_frame`. `Frames.ParseUndoesBuild` states exactly when, and
  `Frames.CutCharacterIsRefused` gives such an id.
- A repeated `file_download_begin` replaces the declared size, and may announce less than was
  already sent (`Downloads.LoweredSizeIsExceeded`). The bytes of a download are within its latest
  declared size if and only if they were when that size was announced (`Downloads.DownloadBudget`).
- Scrollback and session lists are looked up under a lock and sent after it. A desktop that was
  replaced in between can broadcast inside the burst of another (`ReplayHandlers.EvictedDesktopIntrudes`)
  or send to a client of an earlier burst (`ReplayHandlers.LateSendIntrudes`). A burst is exclusive
  to its requester on every continuation if and only if everything that handlers held at its begin
  was for that requester (`ReplayHandlers.BurstExclusive`).
- A broadcast of live output holds only the read lock, so two desktops, one of them replaced, can
  deliver to a client at the same time. With at most k deliveries at a time, the 2 MiB budget, the
  absence of holes and one nudge per transition each hold of every run if and only if k is at most
  one (`Channel.BudgetExactly`, `Channel.NoHolesExactly`, `Channel.NudgesExactly`);
  `Channel.TwoDeliveries` gives the runs for two.
- A login is checked before the password is verified and recorded after, so attempts that overlap
  are all let through. With at most k attempts open at a time, the rate of 5 + floor(T / 900)
  failures in T seconds holds of every run if and only if k is at most one
  (`LoginOverlap.RateExactly`). For every k the most there can be is 4 + k * (1 + floor(T / 900))
  (`LoginOverlap.OverlapBound`), and there are runs with that many
  (`LoginOverlap.OverlapBoundReached`).
- A connection slot is acquired by a load and a separate add. With at most k calls between the two
  at a time, the cap of 50 holds of every run if and only if k is at most one
  (`ConnectionCap.CapExactly`); the most there can be is 49 + k (`ConnectionCap.TotalBound`,
  `ConnectionCap.TotalReached`).
- An account that does not exist yet takes every step as an empty one, with one exception: a list
  request on it queues nothing (`Account.AbsentActsEmptyExactly`).

## Model

| member | source | states |
|---|---|---|
| `Expiry.ElapseKeepsTheLiving` | src/broker.rs:590-595 | ticking a table instant by instant, dropping each entry at its deadline, leaves what one sweep at the end leaves |
| `Expiry.CatchUp` | src/broker.rs:732-737 | if the lazy table filtered at the last instant is the on-time table, it still is after any wait |
| `Expiry.SimulationStep` | src/broker.rs:730-737 | for any table: if its lazy step, filtered, is the operation on the filtered table, the lazy table goes on simulating the on-time table, and the on-time decision is the one made on the filtered table |
| `Uploads.LifeCycle` | src/broker.rs:590-728 | on every run the table has an entry for an id if and only if its history since the latest accepted begin says it is live (no overrun, resolve, drop of its owner, or sweep after 60 s idle); the entry is what that history says (owner, declared size, finished, forwarded bytes = sum of accepted payload lengths, last activity, buffer since the mark), and those bytes never exceed min(declared, 25 MiB) |
| `Uploads.BeginAnswers` | src/broker.rs:600-633 | on every run a begin is too large, one too many, a duplicate or accepted exactly by its size (25 MiB), the number of live uploads (8) and whether its id is live, in that order |
| `Uploads.ChunkAnswers` | src/broker.rs:670-701 | a chunk is dropped, overruns or is forwarded exactly by whether the upload is live, begun by the sender and unfinished, and by the budget |
| `Uploads.ResolveAnswers` | src/broker.rs:723-728 | a result is routed to a connection if and only if the upload is live and that connection began it |
| `Uploads.TakeAnswers` | src/broker.rs:654-667 | a take yields exactly the bytes accepted since the mark, to the connection that began the upload |
| `Uploads.Conservation` | src/broker.rs:590-728 | accepted begins of an id = overruns + resolved + swept + dropped with their owner + active |
| `Uploads.Bounded` | src/broker.rs:615-617 | never more than 8 uploads |
| `Uploads.LazySimulatesEager` | src/broker.rs:588-595 | the lazily swept upload table filtered at the clock is the table that expires on time |
| `Uploads.LazyAgreesWithEager` | src/broker.rs:654-667 | every upload decision is the on-time decision if and only if it does not take a stale buffer |
| `Uploads.StaleTakeExists` | src/broker.rs:654-667 | a run on which the two differ |
| `Downloads.DownloadBudget` | src/broker.rs:773-814 | on every run the table has an entry for an id if and only if its history says it is live, and a faithful one (owner, latest size, bytes, last activity); per registration chunks go only to the registering connection, total at most 25 MiB in any order of chunks and begins, and within the latest declared size if and only if the bytes already sent when it was announced were |
| `Downloads.LoweredSizeIsExceeded` | src/broker.rs:773-786 | the runs that break the declared size: a second begin announces less than was sent |
| `Downloads.RegisterAnswers` | src/broker.rs:744-768 | a registration is accepted if and only if fewer than 4 downloads are live, one of the same id included |
| `Downloads.NoteAnswers` | src/broker.rs:773-786 | a begin is passed on to a connection if and only if the download is live and that connection registered it |
| `Downloads.ChunkAnswers` | src/broker.rs:791-814 | a chunk is dropped, overruns or is forwarded exactly by whether the download is live and by the latest declared size (25 MiB at most), and the connection told is the one that registered |
| `Downloads.ResolveAnswers` | src/broker.rs:819-824 | an end is passed on to a connection if and only if the download is live and that connection registered it |
| `Downloads.Bounded` | src/broker.rs:755-757 | never more than 4 downloads |
| `Downloads.LazySimulatesEager` | src/broker.rs:730-737 | the lazily swept download table filtered at the clock is the table that expires on time |
| `Downloads.LazyRefinesEager` | src/broker.rs:732-824 | on every timed run every download decision is the on-time decision |
| `Supervisor.Conservation` | src/broker.rs:840-906 | queries forwarded under an id = delivered + replayed + swept + pending |
| `Supervisor.TrailAgrees` | src/broker.rs:829-906 | on every run a query is pending if and only if its history says so (forwarded, under 300 s old, not answered), with the parked reply that history says |
| `Supervisor.QueryAnswers` | src/broker.rs:840-875 | a query is replayed, re-owned, refused or forwarded exactly by whether it is pending, whether a reply is parked, and whether 8 are pending |
| `Supervisor.ReplyAnswers` | src/broker.rs:881-906 | a reply is unknown, delivered to the latest asker or parked exactly by whether its query is pending and that asker is there |
| `Supervisor.AnsweredAtMostOnce` | src/broker.rs:840-906 | between two forwards of an id it is answered at most once, and not at all if it was not pending |
| `Supervisor.ParkedMeansGone` | src/broker.rs:899-905 | a parked reply belongs to a connection whose receiver is gone |
| `Supervisor.ParkedIsNotDelivered` | src/broker.rs:899-905 | once parked, a repeated reply is parked again, never delivered past the parked one, unless the entry was swept |
| `Supervisor.ReplayIsLatest` | src/broker.rs:851-856 | a re-issued query is handed the desktop's latest reply for its id |
| `Supervisor.DeliveredToLatestAsker` | src/broker.rs:857-859 | a direct reply goes to the connection that asked most recently, which is not gone |
| `Supervisor.AgeCountsFromForward` | src/broker.rs:826-834 | a query's age counts from its forward; neither re-owning nor parking prolongs it |
| `Supervisor.Bounded` | src/broker.rs:862-864 | never more than 8 pending queries |
| `Supervisor.LazySimulatesEager` | src/broker.rs:826-834 | the lazily swept query table filtered at the clock is the table that expires on time |
| `Supervisor.LazyRefinesEager` | src/broker.rs:829-906 | on every timed run every query decision is the on-time decision |
| `Presence.ReachableBounds` | src/broker.rs:441-469 | at most 10 clients, pairwise distinct as connections, at most 64 queued replays; no capabilities without a desktop |
| `Presence.ClientsExactly` | src/broker.rs:441-515 | on every run a connection is a client if and only if it has an accepted registration since which neither it nor its device was unregistered, and the device on record is the one it registered last |
| `Presence.ClientsInJoinOrder` | src/broker.rs:450-469 | clients stand in the order in which they joined |
| `Presence.JoinAnswers` | src/broker.rs:450-469 | a registration is refused if and only if 10 other connections are registered and it is not |
| `Presence.ClosesExactly` | src/broker.rs:360-370 | a registration closes exactly the connection that history says held the slot, and nothing else closes one |
| `Presence.StatusExactly` | src/broker.rs:373-486 | which connections are sent which status by which step, from the history |
| `Presence.RelayedExactly` | src/broker.rs:549-558 | which connections are sent which payload by which step, from the history |
| `Presence.SentOnce` | src/broker.rs:918-923 | no step sends the same message to the same connection twice |
| `Presence.TargetExactly` | src/broker.rs:540-552 | the replay target is what the latest begin selected, until a list, another begin or a slot change |
| `Presence.RouteAnswers` | src/broker.rs:549-558 | the replay lookups answer exactly the connection of that target |
| `Presence.SingleDelivery` | src/broker.rs:918-923 | a broadcast addresses exactly one copy to each registered connection and none elsewhere |
| `Presence.DesktopSlot` | src/broker.rs:351-413 | the slot holds a connection if and only if it registered last and has not unregistered since, with the capabilities it registered |
| `Presence.StatusAgreement` | src/broker.rs:373-486 | the latest status addressed to a registered client since it joined is the state of the slot; if none was, no desktop has been present since |
| `Presence.ReplayFifo` | src/broker.rs:520-552 | accepted list requests less those withdrawn while waiting are the selected ones followed by the queue, in order; with no refusal or withdrawal the k-th burst is for the k-th request |
| `Presence.TargetHolds` | src/broker.rs:500-503 | joins, disconnects, revocations, requests and stale desktop disconnects leave the replay target in place |
| `ReplayHandlers.HandlersExactly` | src/server.rs:944-959 | on every run the connections are the presence run of the handlers' broker calls, and each handler holds exactly what it looked up last and has not sent, with the target of that moment |
| `ReplayHandlers.BurstExclusive` | src/server.rs:1522-1537 | on every run of handlers, with lookup and send as separate moves, a begin selects the head of the queue, and until the burst is closed every scrollback frame and list sent is addressed to that requester and to no one else, whatever follows, if and only if everything handlers held at the begin was routed to it |
| `ReplayHandlers.ExclusiveExactly` | src/server.rs:944-959 | the same from any state with a target and distinct clients |
| `ReplayHandlers.BurstReaches` | src/server.rs:1526-1529 | a frame or closing list looked up in a burst reaches the requester alone, whatever falls between its lookup and its send; the list ends the burst |
| `ReplayHandlers.EvictedDesktopIntrudes` | src/server.rs:1530-1535 | runs on which the broadcast of a replaced desktop reaches another client inside a burst |
| `ReplayHandlers.LateSendIntrudes` | src/server.rs:1526-1529 | runs on which a frame looked up in one burst is sent to its requester inside the burst of another |
| `Account.UploadsProject` | src/broker.rs:237-257 | the uploads of an account run are a run of the upload table, with disconnects as drops |
| `Account.DownloadsProject` | src/broker.rs:237-257 | the downloads of an account run are a run of the download table |
| `Account.SupervisorProjects` | src/broker.rs:237-257 | the queries of an account run are a run of the query table |
| `Account.PresenceProjects` | src/broker.rs:237-257 | the connections of an account run are a run of the presence model, from the creation of the account |
| `Account.EventsExactly` | src/broker.rs:392-399 | which events each table of an account sees: its own operations with the caller's clock readings and closed connections, and the drop of a connection that leaves, by uploads of clients and desktops, by downloads of clients |
| `Account.AnswersProject` | src/broker.rs:600-906 | the answer of an account is the answer its table gives on those events, so the answers stated from histories are those of accounts |
| `Account.AbsentActsEmptyExactly` | src/broker.rs:520-536 | an account step from an absent account is the step of an empty one, whole state and all, if and only if it is not a list request |
| `Account.ExistsExactly` | src/broker.rs:351-875 | an account exists if and only if a registration, an upload, a download, a query or a pending device was made in it |
| `Account.UploadsOfTheGone` | src/broker.rs:392-399 | a step that is not about uploads ends exactly those begun by a client or desktop that leaves with it, and changes no other |
| `Account.DownloadsOfTheGone` | src/broker.rs:490-499 | a step that is not about downloads ends exactly those registered by a client that leaves with it, and changes no other |
| `Account.UploadsExpireExactly` | src/broker.rs:590-728 | on every timed run of a whole account each upload decision is the on-time decision if and only if it does not take a stale buffer |
| `Account.DownloadsExpireOnTime` | src/broker.rs:732-824 | on every timed run of a whole account each download decision is the on-time decision |
| `Account.QueriesExpireOnTime` | src/broker.rs:829-906 | on every timed run of a whole account each query decision is the on-time decision |
| `Account.AccountIndependence` | src/broker.rs:311-314 | after any broker run each account is as if only its own steps had run |
| `Account.DecisionIndependence` | src/broker.rs:351-906 | every decision is the one the account alone would have made |
| `Account.BrokerBounds` | src/broker.rs:275-289 | in every reachable state every table of every account is within its cap |
| `Account.DownloadCallOnTime` | src/broker.rs:732-824 | every download decision of a timed run of the broker is the on-time decision of its account alone |
| `Account.QueryCallOnTime` | src/broker.rs:829-906 | so is every query decision |
| `Account.UploadCallExactly` | src/broker.rs:590-728 | so is every upload decision, if and only if it does not take a stale buffer |
| `Account.ParkedMeansGone` | src/broker.rs:899-905 | in every reachable state of the broker a parked reply belongs to a connection that is gone |
| `Broker.Broker.RegisterDesktop` | src/broker.rs:351-385 | is the registration step: evicts the old desktop, resets replay state, tells every client in order |
| `Broker.Broker.UnregisterDesktop` | src/broker.rs:392-432 | is the unregistration step: drops owned uploads, ignores a replaced desktop, else clears and tells every client |
| `Broker.Broker.RegisterClient` | src/broker.rs:441-486 | is the join step, with its refusal at the cap and its greeting |
| `Broker.Broker.UnregisterClient` | src/broker.rs:490-505 | is the leave step over clients, queue, uploads and downloads |
| `Broker.Broker.UnregisterDevice` | src/broker.rs:509-515 | is the revocation step |
| `Broker.Broker.NoteSessionListRequest` | src/broker.rs:520-536 | is the request step, and clears the dirty flag exactly when the account exists |
| `Broker.Broker.BeginReplay` | src/broker.rs:540-545 | is the step that selects the oldest request |
| `Broker.Broker.EndReplay` | src/broker.rs:549-552 | is the step that ends a burst, with the list sent to the target; without one the caller is told so |
| `Broker.Broker.RouteScrollback` | src/broker.rs:555-558 | changes no account and sends the frame to the target; without one the caller is told so |
| `Broker.Broker.Broadcast` | src/broker.rs:914-923 | sends one copy to each client of the account, in order |
| `Broker.Broker.HandleScrollback` | src/server.rs:1522-1537 | uninterrupted, the frame goes to the target alone, or by a second call to every client if there is none |
| `Broker.Broker.HandleSessionList` | src/server.rs:944-959 | uninterrupted, the list ends the burst and goes to the target alone, or by a second call to every client if there is none |
| `Broker.Broker.BeginUpload` | src/broker.rs:600-633 | is the begin step, with its three refusals in order |
| `Broker.Broker.MarkBugReportUpload` | src/broker.rs:638-648 | is the mark step, without a sweep |
| `Broker.Broker.TakeBugReportBuffer` | src/broker.rs:654-667 | is the take step, without a sweep, at whatever instant it is made |
| `Broker.Broker.RecordUploadChunk` | src/broker.rs:670-701 | is the chunk step |
| `Broker.Broker.FinishUpload` | src/broker.rs:706-718 | is the finish step |
| `Broker.Broker.ResolveUpload` | src/broker.rs:723-728 | is the resolve step |
| `Broker.Broker.RegisterDownload` | src/broker.rs:744-768 | is the registration step, with its refusal at the cap |
| `Broker.Broker.NoteDownloadBegin` | src/broker.rs:773-786 | is the begin step |
| `Broker.Broker.RecordDownloadChunk` | src/broker.rs:791-814 | is the chunk step |
| `Broker.Broker.ResolveDownload` | src/broker.rs:819-824 | is the resolve step |
| `Broker.Broker.BeginSupervisorQuery` | src/broker.rs:840-875 | is the query step |
| `Broker.Broker.ResolveSupervisor` | src/broker.rs:881-906 | is the reply step |
| `Broker.Broker.GcUploads` | src/broker.rs:590-595 | drops exactly the stale uploads |
| `Broker.Broker.GcDownloads` | src/broker.rs:732-737 | drops exactly the stale downloads |
| `Broker.Broker.GcSupervisor` | src/broker.rs:829-834 | drops exactly the queries past their age |
| `Broker.Broker.WithinCapsAlways` | src/broker.rs:275-289 | after any calls every table of every account of the object is within its cap |
| `Broker.Broker.DownloadsOnTime` | src/broker.rs:732-824 | every download answer the object ever gave is the on-time one, if its clock never went back |
| `Broker.Broker.QueriesOnTime` | src/broker.rs:829-906 | so is every query answer |
| `Broker.Broker.UploadsOnTimeExactly` | src/broker.rs:590-728 | so is every upload answer, if and only if it did not take a stale buffer |
| `Broker.Broker.ParkedOwnersAreGone` | src/broker.rs:899-905 | a reply the object has parked belongs to a connection that is gone, if those that are gone stay gone |
| `Broker.Broker.PresenceIsRun` | src/broker.rs:351-558 | the connections of each account of the object are the presence run of its own calls |
| `Broker.Broker.OneCopyEach` | src/broker.rs:918-923 | a broadcast of the object addresses one copy to each client of the account and none elsewhere |
| `Broker.Broker.ClientsInformed` | src/broker.rs:373-486 | every client of the object was last told the state of the desktop slot, or never saw a desktop |
| `Broker.Broker.ReplaysInOrder` | src/broker.rs:520-552 | kept replay requests of the object are the selected ones followed by the queue |
| `Channel.ByteAccounting` | src/server.rs:309-331 | under every interleaving the counter is the bytes in the channel + added and not enqueued + received and not subtracted + lost (modulo the word), exactly so with none lost while the receiver lives, and what the writer subtracts is in it |
| `Channel.OutputWithinBudget` | src/broker.rs:74-85 | with at most k deliveries at a time, live output outstanding on a connection never exceeds k times 2 MiB, however control sends and draining interleave |
| `Channel.BudgetExactly` | src/broker.rs:74-85 | live output stays within 2 MiB on every run with at most k deliveries at a time if and only if k is at most one |
| `Channel.OverExactly` | src/broker.rs:79-80 | a delivery that saw a clean connection is over budget if and only if what is outstanding and its bytes exceed 2 MiB |
| `Channel.DirtyExactly` | src/broker.rs:75-91 | a connection is dirty exactly from a setting of the flag to the next clear |
| `Channel.NoHoles` | src/broker.rs:74-91 | with one delivery at a time, between two clears the output enqueued is a prefix of the output offered |
| `Channel.NoHolesExactly` | src/broker.rs:74-91 | output enqueued is a prefix of output offered on every run with at most k deliveries at a time if and only if k is at most one |
| `Channel.InOrder` | src/server.rs:312-330 | the socket is handed a prefix of what was enqueued, in order |
| `Channel.NudgeDiscipline` | src/broker.rs:940-959 | for any number of deliveries and any scheduling of nudge tasks, grants are at least 10 s apart and with the waiting tasks never outnumber the settings of the dirty flag |
| `Channel.GrantExactly` | src/broker.rs:943-951 | a nudge task is granted if and only if none was granted before or the last was 10 s or more ago |
| `Channel.NudgesPerTransition` | src/broker.rs:74-85 | with at most k deliveries at a time, grants and waiting tasks never outnumber k times the clean-to-dirty transitions |
| `Channel.NudgesExactly` | src/broker.rs:74-85 | grants never outnumber transitions on every run with at most k deliveries at a time if and only if k is at most one |
| `Channel.TwoDeliveries` | src/broker.rs:914-935 | runs with at most two deliveries at a time that leave 4 MiB outstanding, a hole in the output, and more grants than transitions |
| `Connections.ConnTx.Send` | src/broker.rs:67-70 | is the add and enqueue steps of the channel, and fails exactly when the receiver is gone |
| `Connections.ConnTx.SendOutput` | src/broker.rs:74-85 | is the output steps of the channel, true exactly when the connection turns dirty; a frame is enqueued exactly when it stays clean and the receiver lives |
| `Connections.ConnTx.OverIsChannel` | src/broker.rs:79-80 | output turns a clean connection dirty exactly if it would take its channel past 2 MiB |
| `Connections.ConnTx.ClearDirty` | src/broker.rs:89-91 | clears the flag and nothing else |
| `Connections.ConnTx.WriterTurn` | src/server.rs:312-330 | is one turn of the writer: the first message leaves, its bytes are subtracted without underflow, and the writer stops on a close or a failed write |
| `Connections.ConnTx.Abort` | src/server.rs:420-421 | the writer is stopped at socket close: the receiver is gone, what was queued is lost and stays counted |
| `Connections.ConnTx.CounterIsChannel` | src/broker.rs:67-70 | between calls, while the receiver lives, the counter is exactly the bytes in the channel |
| `Connections.BroadcastOutput` | src/broker.rs:925-934 | each client takes the output steps once; those nudged are exactly those that turned dirty |
| `Screenshots.PersistedExactly` | src/server.rs:582-723 | for every interleaving and every accepted begin: its screenshot is persisted if and only if it was marked and then ended by its own connection while live, as client or as desktop, and that connection is past the persisting step; once, all the bytes ever accepted for it in order, at most 10 MiB |
| `Screenshots.EndIsPersisted` | src/server.rs:660-723 | whenever a connection between messages ends its live marked upload, its next persisting step appends exactly the bytes accepted for that begin, whatever falls between |
| `Screenshots.AlwaysFollows` | src/server.rs:582-723 | handlers go through their broker calls in the source's order, and a live upload has a buffer exactly if it was marked and not ended |
| `Screenshots.HandlersCall` | src/server.rs:582-723 | however handlers interleave, the upload table is the run of their broker calls in the source's order |
| `Screenshots.BegunExactly` | src/server.rs:582-656 | a begin is accepted if and only if its connection is between messages, it is a bug report of at most 10 MiB or a client's upload of at most 25 MiB, fewer than 8 are live and its id is not |
| `BugReports.ChunkKeeps` | src/server.rs:1443-1489 | chunks keep the interleaving invariant; none is accepted for an upload whose buffer was taken |
| `AuthLimiter.RateLimiter.CheckRateLimit` | src/auth.rs:97-110 | refuses exactly while locked, with a hint of the whole seconds left, at least one |
| `AuthLimiter.RateLimiter.RecordFailure` | src/auth.rs:113-123 | counts the failure and, from the fifth on, locks for 900 s from now |
| `AuthLimiter.RateLimiter.HandleAuth` | src/server.rs:1187-1376 | an attempt is refused exactly while locked; otherwise it succeeds exactly by a valid key, else a valid token, else a valid password with any enrolled second factor, fails exactly by a wrong one where it decides, and is incomplete exactly if one is missing; it is one step of the limiter for its username and touches no other |
| `AuthLimiter.VerdictExactly` | src/server.rs:1198-1376 | the same of the limiter's decision |
| `AuthLimiter.RefusedExactly` | src/auth.rs:97-129 | however attempts overlap, the limiter refuses if and only if at least 5 failures were recorded since the last clear and fewer than 900 s have passed since the last |
| `AuthLimiter.AttemptIsStep` | src/server.rs:1198-1376 | whole attempts in turn change the limiter as `HandleAuth` does |
| `AuthLimiter.SpacedExactly` | src/auth.rs:113-123 | however attempts overlap, failures since a clear keep 900 s apart from the fifth on if and only if none is recorded during a lockout |
| `AuthLimiter.AttemptsAreDisciplined` | src/server.rs:1198-1376 | whole attempts in turn never record a failure during a lockout |
| `AuthLimiter.FailureRateBound` | src/auth.rs:97-129 | so whole attempts without a success record at most 5 + floor(T / 900) failures in T seconds from the first |
| `LoginOverlap.OverlapBound` | src/auth.rs:97-129 | with check and record as separate turns and at most k attempts open at a time, T seconds from the first failure since a success see at most 4 + k * (1 + floor(T / 900)) failures |
| `LoginOverlap.OverlapBoundReached` | src/server.rs:1198-1376 | for every k and every number of lockouts, a run with exactly that many |
| `LoginOverlap.RateExactly` | src/auth.rs:97-129 | 5 + floor(T / 900) failures in T seconds hold of every run with at most k attempts open at a time if and only if k is at most one |
| `LoginOverlap.InTurn` | src/server.rs:1198-1376 | whole attempts in turn are a run with at most one open at a time, and change the limiter alike |
| `ConnectionLimiter.Limiter.Check` | src/server.rs:59-72 | prunes, decides and records exactly as the step says |
| `ConnectionLimiter.PrunedIsHistory` | src/server.rs:64-65 | the pruned list is the full acceptance history filtered to the window |
| `ConnectionLimiter.AllowedExactly` | src/server.rs:59-72 | an attempt is allowed if and only if fewer than 10 were accepted from its address in the 60 seconds up to it |
| `ConnectionLimiter.SlidingWindow` | src/server.rs:59-72 | no half-open 60-second window holds more than 10 accepted connections of one address |
| `ConnectionCap.CountIsHistory` | src/broker.rs:325-342 | the counter is the slots taken less those given back, and a call finds room if and only if that is below 50 |
| `ConnectionCap.TotalBound` | src/broker.rs:325-337 | with at most k calls between load and add at a time, there are at most 49 + k connections on every run |
| `ConnectionCap.TotalReached` | src/broker.rs:325-332 | for every k, a run with exactly that many |
| `ConnectionCap.CapExactly` | src/broker.rs:325-337 | the cap of 50 holds of every run with at most k such calls at a time if and only if k is at most one |
| `Frames.BuildBinaryFrame` | src/protocol.rs:386-396 | builds type, padded id and payload |
| `Frames.PaddedExactly` | src/protocol.rs:389-392 | the id slot byte by byte: 36 bytes of the id, then spaces |
| `Frames.ParseExactly` | src/protocol.rs:364-383 | for all data exactly when it is too short, of unknown type (not 1 to 5), not UTF-8 or accepted, and the parts of an accepted frame |
| `Frames.BuildUndoesParse` | src/protocol.rs:364-383 | building what was parsed gives back every byte of an accepted frame; the payload is the frame less 37 bytes |
| `Frames.ParseUndoesBuild` | src/protocol.rs:364-396 | for every string id, parsing what was built gives the type, padded id and payload if and only if the type is known and the id is not cut inside a character, and otherwise the error that says which |
| `Frames.CutCharacterIsRefused` | src/protocol.rs:390-392 | ids the round trip fails for: a two-byte character astride the end of the slot |
| `Frames.CutAtBoundary` | src/protocol.rs:391-392 | a valid UTF-8 string can be cut exactly where the next byte is no continuation (section 4 of RFC 3629) |
| `Frames.Utf8Exactly` | src/protocol.rs:379-381 | the byte grammar of section 4 of RFC 3629 accepts exactly the encodings of sequences of Unicode scalar values (section 3) |
| `Frames.PaddedValid` | src/protocol.rs:390-392 | filling up an id with spaces keeps it valid; cutting it does exactly at a character boundary |
| `FileFrames.FramesAccounted` | src/server.rs:1435-1489 | however frames and other calls interleave, the bytes of a live upload are the lengths of its accepted frames less 37 each, within min(declared, 25 MiB) |
| `FileFrames.ChunkExactly` | src/server.rs:1435-1470 | a frame records a chunk if and only if it is accepted and of type 4, with its id, its sender and what follows the header |

## Left out

- Push delivery and payload encryption, and the outcome of password, TOTP, token and key checks: foreign cryptography; the outcomes are inputs of `AuthLimiter`.
- SQLite storage and files: persisting a bug report is appending to a log; the report text, device id and file naming are not modelled.
- HTTP routes, static files, CORS, command line, logging and the JSON text of control messages: messages are datatypes.
- Pending devices, device listing, `send_to_client`, `send_to_desktop`, shutdown broadcast, input validators and size gates: they would only add easy members. Adding a pending device is kept for its one effect on routing, that it creates the account.
- Client names, addresses and join times: nothing decides on them.
- The desktop-offline answer to a supervisor query, and what handlers forward to the desktop: one read and one send around the modelled steps.
- Channel.NudgeDiscipline: says nothing about a dirty client being nudged eventually; a transition inside the ten seconds is skipped and not retried.
- Connections.ConnTx.Send: taken without interruption; the interleavings are those of `Channel`.
- AuthLimiter.RateLimiter.RecordFailure: the failure count is unbounded, where the code uses 32 bits; for attempts in turn it could not overflow for more than a hundred thousand years.
- FileFrames.FramesAccounted: how a valid id is read as a string is a parameter; nothing depends on it.
- Byte counts of uploads and downloads are unbounded, where the code uses 64 bits; they stay at 25 MiB plus one frame.
- Eventual cleanup after a disconnect: replay targets and the owners of queries stay on purpose, so cleanup is stated per operation.
