# Verification of the ggcode relay core

A Dafny model of the parts of ggcode where state outlives a single call, with proofs about every run.

The main subject is the relay (`ggcode-relay`). One host connection shares a live event stream with many
clients through a room. Clients resume from a cursor, a host can be replaced by a newer one, rooms expire,
and events are written to SQL tables by unordered background tasks so that a restarted process can replay
them. State lives in three places: room memory, per-connection queues and cursors, and tables. Smaller
subjects are the model catalog and its refresh, the log ring buffer, the shell-argument parser, the
suppressing trace logger and the incremental UTF-8 assembler.

## How it is organised

| file | contents |
|---|---|
| `Lex.dfy`, `Messages.dfy` | id order and sorted listing; messages, raw frames, history entries |
| `History.dfy` | append with duplicate window, replay suffix |
| `Store.dfy`, `StoreTheorems.dfy` | the tables, each transaction as a function and as a method; integrity, retention, cursors, reload order |
| `Relay.dfy` | room memory, every handler as a function on it, and the machine that interleaves handlers, tasks, cleanup and crashes |
| `RoomServer.dfy` | the same handlers as imperative methods with their loops, proved equal to those functions |
| `RelayFrames.dfy`, `RelayWellFormed.dfy` | what handlers leave alone; entries, rows and tasks agree with their bytes |
| `RelaySessions.dfy`, `RelayResume.dfy`, `RelayPersistence.dfy`, `RelayRestart.dfy`, `RelayDelivery.dfy`, `RelayCursors.dfy`, `RelayNotices.dfy`, `RelayStale.dfy` | the theorems about runs of the relay |
| `HubLifecycle.dfy` | the hub's rooms at lock-section granularity |
| `Catalog.dfy`, `CatalogRefresh.dfy` | catalog index and lookup; refresh machine |
| `LogStream.dfy`, `Trace.dfy`, `ShellArgs.dfy`, `Utf8.dfy` | the companion cores |

Each stateful component appears twice. A pure form (a `datatype` state, a `Step` or `Op` type, `Apply`, `Run`)
carries the theorems, which quantify over every sequence of steps. An imperative form (a class whose fields
are the program's fields) has one method per operation, whose postcondition equates the new state with the
pure step. What a step means is stated beside it without naming it again: who is told what
(`RelayNotices.dfy`), what each row says after every run (`StoreTheorems.dfy`), which entry a lookup prefers
(`Catalog.dfy`). `dafny verify dfyconfig.toml` checks everything.

## Modelling decisions

- A byte string that decodes as a message is `Raw(msg, text)`: the message it decodes to and whatever else
  distinguishes it. `Json(m)` is the canonical encoding. So JSON stays abstract but decoding is exact.
- Room keys are token hashes; SHA-256 itself is not modelled. Ids are strings under byte-wise lexicographic
  order. Chars stand for bytes. Times are integers supplied by the caller.
- A store is always present. A transaction either commits or changes nothing; which is an input.
- Handlers that hold the room's send lock are one step. The concurrent writer may drain during the replay
  loop (input `drains`). Restoring a room from the store takes only the room's own lock, so a restore can
  fall between the lock sections of a broadcast or an active_session; `BroadcastDuring` and
  `ActivateDuring` take those restores as inputs, the imperative handlers are proved against them, and
  `HomogeneousThroughoutIff` covers runs in which they occur. Without restores they are the atomic
  handlers (`UninterruptedHandlers`).
- Admitting a client and attaching it are two steps, as in the program; a registering host is one step here
  and several in `HubLifecycle`. A room dropped from the hub stays usable by whoever still holds it.
- When a connection's reader has returned and its queue has room, Go's `select` in `sendRaw` may take either
  branch; the model drops the message. Nothing is claimed about the queue of such a connection.
- Comments in `handleClientEncrypted` mention broadcasting client events to other clients; the code does not
  do that, and the model follows the code.

## Results that correct a natural expectation

- Full uniqueness of ids in a history does not hold; `DistinctKeptIff` says exactly when an append keeps it.
- A replay can stop early and leave the client ready with a gap: `ResumeIsGapFree` says exactly what was
  queued, and `ReplayCompleteIff` when that is everything.
- A reload returns arrival order only for strictly increasing ids: `ReloadKeepsOrderIff`.
- `expired` keeps a registration from attaching to an expired room, but a room dropped by `destroyRoom` or
  `removeRoomIfEmpty` is not marked, and a host can attach to it: `OrphanedHost`, `AttachedInHubIff`.
- A restore that runs inside a broadcast can put an event into another session's history:
  `InterruptedBroadcastIff` says exactly when, `MixedSessionsReachable` reaches such a state from a fresh
  process, and `HomogeneousThroughoutIff` lifts the condition to whole runs.
- A host can lose its room without being told, when a registration that already turned one host away
  finishes: `DisplacedUntoldIff`, `UntoldHost`.
- A host whose room was dropped can stop another host's share: `StopDestroysOwnRoomIff`, `OrphanStopsAnother`.
- A late commit of an old session's event makes a restart bring that session back although nothing is
  pending: `RestartRestoresSessionIff`, `LateCommitRevivesSession`.
- An event forwarded live can end up nowhere: `NoSilentGap` says exactly when, for every run, and
  `CrashLosesForwarded` is the shortest one.
- A stored event's row may hold the bytes of another event with the same session and id whose task finished
  later, even an older one: `LateCommitOverwrites`.
- A stored cursor is kept per client, not per session, and a resume takes it whatever session it was
  acknowledged in; since hosts number events from the start in every session
  (`internal/tunnel/broker.go:648`), it can hide events of the current session that were never delivered:
  `HelloSkipsIff`, `LeftOutUndeliveredIff`, `ForeignCursorHidesEvents`.
- For the same reason a whole session's acknowledgements can leave no trace: `AckRecordedIff` says for every
  run when one is recorded, and in `SessionAcksVanish` none is.
- U+FFFD typed by the user is swallowed by the assembler: `Reassembles`, `FeedOne`.
- A NUL in a requested provider id can be answered with another pair's entry as an exact match:
  `LookupExactIff` and `AnswerExactIff` say for which requests, `NulRequestMisfires` is one.
- Suppressed trace lines with an empty summary would not be reported by a flush (`FlushReportsIff`); every
  summary the relay passes starts with a fixed text (`ggcode-relay/trace.go:185`), so this does not occur
  there.

## Model

| member | source | states |
|---|---|---|
| `History.AppendEffect` | ggcode-relay/relay.go:110-124 | appending keeps "no empty id, equal ids more than 50 positions apart"; a recent duplicate keeps the id sequence, a new id extends it by exactly itself, a transient event changes nothing |
| `History.DistinctKeptIff` | ggcode-relay/relay.go:115-120 | full uniqueness survives an append if and only if the id does not occur before the 50-entry window |
| `History.AfterIsSuffix` | ggcode-relay/relay.go:186-203 | the replay is a suffix of the history containing every entry after any occurrence of the cursor |
| `History.AfterExact` | ggcode-relay/relay.go:192-198 | without duplicates, the replay for an entry's id is exactly what follows that entry |
| `Store.RelayStore.PersistEvent` | ggcode-relay/store.go:227-280 | three upserts in one transaction give the specified tables, or nothing changes and the call fails |
| `Store.RelayStore.PersistActiveSession` | ggcode-relay/store.go:282-327 | room and session rows upserted, empty descriptive fields keep the old value |
| `Store.RelayStore.DestroyRoom` | ggcode-relay/store.go:329-359 | exactly the rows of that token hash disappear from all four tables |
| `Store.RelayStore.CleanupExpired` | ggcode-relay/store.go:361-432 | five statements run one after the other on the live tables amount to one closed form over the tables before: no expired session row remains, an event survives if and only if its session is within retention, and a room whose session was just cleared may go in the same run |
| `Store.RelayStore.ClearCurrentSessions` | ggcode-relay/store.go:374-389 | row by row in any order, exactly the rooms whose current session is expired lose it |
| `Store.RelayStore.DeleteEvents` | ggcode-relay/store.go:390-402 | row by row in any order, exactly the events of expired sessions go |
| `Store.RelayStore.SaveClientCursor` | ggcode-relay/store.go:651-667 | guarded upsert: the row moves only to a larger id |
| `Store.RelayStore.LoadRoom` | ggcode-relay/store.go:174-225 | the current session's rows in id order, with the event hash taken from the bytes |
| `Store.RelayStore.ScanRows` | ggcode-relay/store.go:205-220 | the scan loop returns one entry per row, in id order |
| `StoreTheorems.IntegrityAlways` | ggcode-relay/store.go:227-432 | after every sequence of transactions each event has its session row and each non-empty current session names a session row |
| `StoreTheorems.DestroyedExactly` | ggcode-relay/store.go:329-359 | of a destroyed room no row is left in any of the four tables, and every other room's rows are as before |
| `StoreTheorems.SessionTimes` | ggcode-relay/store.go:257-262 | after every run the session rows are exactly the sessions written to and not destroyed or aged out, with the time of the last write |
| `StoreTheorems.WrittenSessionSurvives` | ggcode-relay/store.go:374-404 | a session written to within retention survives the cleanup with its room and all its events |
| `StoreTheorems.EventRows` | ggcode-relay/store.go:262-274 | after every run an event has a row exactly if it was written since it was last deleted, with the first write's time and the last one's stream and bytes |
| `StoreTheorems.RoomRows` | ggcode-relay/store.go:245-256 | after every run a room has a row exactly if a write named a session of it and nothing dropped it since, with that write's session, epoch and time |
| `StoreTheorems.FieldsAreLastGiven` | ggcode-relay/store.go:300-312 | after every run each descriptive field of a room is the last non-empty value given for that field |
| `StoreTheorems.CursorRowsWereSaved` | ggcode-relay/store.go:651-667 | after every run a cursor row is, field for field, what some write saved |
| `StoreTheorems.LoadGives` | ggcode-relay/store.go:174-225 | a load gives the row's session, epoch and descriptive fields and exactly that session's stored events |
| `StoreTheorems.CleanupIdempotent` | ggcode-relay/store.go:361-432 | a second cleanup at the same cutoff changes nothing |
| `StoreTheorems.CleanupKeepsRows` | ggcode-relay/store.go:390-402 | a cleanup keeps the rows of every session within retention, in order |
| `StoreTheorems.CleanupKeepsRoomIff` | ggcode-relay/store.go:374-404 | a room with a current session loads as before if and only if that session is within retention |
| `StoreTheorems.CursorIsMax` | ggcode-relay/store.go:651-667 | after every run the persisted cursor is the lexicographic maximum of the ids saved since the row was last deleted |
| `StoreTheorems.CursorConfluence` | ggcode-relay/store.go:651-667 | two runs that saved the same ids, in whatever orders, persist the same cursor |
| `StoreTheorems.CursorNeverMovesBack` | ggcode-relay/store.go:643-650 | no transaction moves a persisted cursor back |
| `StoreTheorems.ReloadKeepsOrderIff` | ggcode-relay/store.go:196-202 | a fully persisted session reloads in arrival order if and only if its ids arrived strictly increasing |
| `RoomServer.LiveRoom.AppendEvent` | ggcode-relay/relay.go:110-124 | the backward loop over the last 50 entries computes `Append` and reports whether to forward |
| `RoomServer.LiveRoom.EventsAfter` | ggcode-relay/relay.go:186-203 | the forward loop computes the replay suffix |
| `RoomServer.LiveRoom.SendRaw` | ggcode-relay/relay.go:266-281 | never blocks: queued, ignored when done, or dropped with the connection closed |
| `RoomServer.LiveRoom.FanOut` | ggcode-relay/relay.go:585-587 | sending to clients one by one in any order equals sending to all at once |
| `RoomServer.LiveRoom.BindRoomSession` | ggcode-relay/relay.go:858-888 | session, epoch and history after a binding, whatever a restore between its two lock sections found; the epoch returned is positive |
| `RoomServer.LiveRoom.BindLocked` | ggcode-relay/relay.go:872-888 | gives up when the room moved to a third session since it was read, else binds and clears the history on a change of session or epoch |
| `RoomServer.LiveRoom.HydrateLocked` | ggcode-relay/relay.go:131-148 | a persisted state is taken only by a room without session and history |
| `RoomServer.LiveRoom.HandleServerBroadcast` | ggcode-relay/relay.go:526-598 | the whole new state, with restores at any of three places: binding, stamping, append, fan-out to ready or all clients, persist task |
| `RoomServer.LiveRoom.StampEvent` | ggcode-relay/relay.go:540-549 | the session and epoch the event is forwarded with, read from the room when the message names none |
| `RoomServer.LiveRoom.Record` | ggcode-relay/relay.go:555-597 | append, fan-out and persist task for a stamped event |
| `RoomServer.LiveRoom.HandleClientEncrypted` | ggcode-relay/relay.go:483-524 | always forwarded to the host; appended; persisted only if new |
| `RoomServer.LiveRoom.OnActiveSession` | ggcode-relay/relay.go:600-678 | session taken from the message or else from its data, merge of descriptive fields, binding, notice to all clients, persist task |
| `RoomServer.LiveRoom.OnServerReady` | ggcode-relay/relay.go:680-694 | only the room's server sets it |
| `RoomServer.LiveRoom.OnResume` | ggcode-relay/relay.go:696-768 | new holder of the client id, cursor choice, superseded connection closed, client waits for its key |
| `RoomServer.LiveRoom.ReplayBacklog` | ggcode-relay/relay.go:802-816 | the replay loop with headroom, whatever the writer drains between iterations |
| `RoomServer.LiveRoom.FinishResume` | ggcode-relay/relay.go:792-838 | acknowledgement, replay and notice to the host in that order |
| `RoomServer.LiveRoom.NotifyServerClientConnected` | ggcode-relay/relay.go:1522-1553 | the host is told session, epoch, history length and tail |
| `RoomServer.LiveRoom.OnAck` | ggcode-relay/relay.go:904-936 | cursor moves only forward, only for the id's holder, and starts one cursor write |
| `RoomServer.LiveRoom.DetachFromRoom` | ggcode-relay/relay.go:390-426 | host and client departure, including removal of an empty room |
| `RoomServer.LiveRoom.OnStopSharing` | ggcode-relay/relay.go:840-856 | the current host's stop, and only that, asks for its token to be destroyed; while the hub holds the room this drops it, notifies everyone and queues row deletion |
| `RoomServer.LiveRoom.RegisterServer` | ggcode-relay/relay.go:1447-1477 | a new host takes over and the old one is told; only an expired room turns it away |
| `RoomServer.LiveRoom.AdmitClient` | ggcode-relay/relay.go:1346-1390 | a client is let in exactly while the hub holds the room and a ready host is attached |
| `RoomServer.LiveRoom.RegisterClient` | ggcode-relay/relay.go:1476-1491 | an admitted client is attached whatever became of host and room, and the host, if any, is told |
| `RoomServer.LiveRoom.PersistEventDurable` | ggcode-relay/relay.go:437-462 | stored at the first accepted attempt, or after exactly three failures the connection is closed and the failure recorded; an event without session or id succeeds at once |
| `RelaySessions.InvAlways` | ggcode-relay/relay.go:858-888 | in every state reachable by whole handlers every host entry carries the room's session and, unless restored, its epoch, and the duplicate window holds |
| `RelaySessions.ReplayIsHomogeneous` | ggcode-relay/relay.go:770-790 | in every such state no replay, from any cursor, mixes sessions or epochs |
| `RelaySessions.BindReplacesIff` | ggcode-relay/relay.go:879-888 | a binding to another session or epoch, or one that asks for it, leaves an empty history, restored or not; any other leaves the history as it was |
| `RelaySessions.BindGivesUpIff` | ggcode-relay/relay.go:875-877 | with a session read earlier a binding gives up exactly when the room has moved to a third one |
| `RelaySessions.NoStaleEpoch` | ggcode-relay/relay.go:880-884 | once a room's epoch has changed, restored or not, no entry from before the change is left, and until a restart every host entry carries the room's epoch |
| `RelaySessions.StampKeeps` | ggcode-relay/relay.go:541-550 | a stamped event carries the room's epoch, its own session or else the room's, and everything else as sent |
| `RelaySessions.InterruptedBroadcastIff` | ggcode-relay/relay.go:526-566 | with restores inside the binding, before the session is read and before the append, a broadcast keeps homogeneity if and only if a condition on message, room and the loaded sessions holds |
| `RelaySessions.InterruptedActivationKeeps` | ggcode-relay/relay.go:643-657 | an active_session keeps homogeneity whatever restores fall into it |
| `RelaySessions.HomogeneousThroughoutIff` | ggcode-relay/relay.go:890-902 | in every run, with restores falling anywhere, homogeneity holds at every moment if and only if every restore inside a broadcast was harmless |
| `RelaySessions.MixedSessionsReachable` | ggcode-relay/relay.go:872-877 | after a failed load, a second host's restore inside the first one's broadcast mixes two sessions, for every stored session and every event naming another or none |
| `RelaySessions.UninterruptedHandlers` | ggcode-relay/relay.go:526-678 | without restores the fine-grained handlers equal the atomic ones |
| `RelayResume.ReplayFollows` | ggcode-relay/relay.go:802-816 | the replay queues a prefix of the backlog, in order |
| `RelayResume.ReplayHeadroom` | ggcode-relay/relay.go:802-816 | under any draining the loop never closes the connection, keeps 64 free slots free, and sends a fitting backlog completely |
| `RelayResume.ReplayCompleteIff` | ggcode-relay/relay.go:802-816 | with no draining the replay is complete if and only if the backlog fits above the headroom |
| `RelayResume.KeptUpReplayIsComplete` | ggcode-relay/relay.go:802-816 | a writer that takes one message before every iteration lets a backlog of any length through |
| `RelayResume.DrainTakes` | ggcode-relay/relay.go:300-312 | the writer takes from the front, in order |
| `RelayResume.StepFollows` | ggcode-relay/relay.go:564-587 | every step of any kind queues to a resumed client exactly the new host event it appends, if any, or loses the connection |
| `RelayResume.ResumeIsGapFree` | ggcode-relay/relay.go:792-824 | for every past and every continuation: the event ids queued since key_ready are the replayed history after the cursor followed by every new host event, none missing or repeated |
| `RelayResume.HostEventsArrive` | ggcode-relay/relay.go:526-598 | those live events are the host's among the history's new entries, in history order |
| `RelayResume.RunGrowsHistory` | ggcode-relay/relay.go:110-124 | while not replaced, the history's id sequence grows by exactly the arrivals of the run |
| `RelayResume.FollowingClientIsCurrent` | ggcode-relay/relay.go:792-824 | while only the host adds events, a client that resumed and was not lost always holds exactly the history from where its replay started, which for a known or empty cursor is the history after the cursor |
| `RelayPersistence.NoSilentGap` | ggcode-relay/relay.go:564-597 | for every event forwarded live and every continuation, crashes, cleanups and destruction included: it is in its row, pending, or reported with its host closed after exactly three failures, if and only if no crash found it unwritten and no deletion took its row without a renewal since |
| `RelayPersistence.RunAccountedIff` | ggcode-relay/relay.go:437-462 | the same from any point of a run, for host and client events, with the row holding the bytes committed last |
| `RelayPersistence.RowsAreWritten` | ggcode-relay/store.go:262-274 | in every run from empty tables an event row exists if and only if it was written since it was last deleted, and holds the bytes written last |
| `RelayPersistence.GapOnlyByCrash` | ggcode-relay/relay.go:437-462 | while no row is deleted, an event forwarded live is stored, pending or reported unless some crash found its task still pending |
| `RelayPersistence.CrashLosesForwarded` | ggcode-relay/relay.go:593-597 | an event forwarded live and then in no store and no task, because the process died before its task ran |
| `RelayPersistence.LateCommitOverwrites` | ggcode-relay/store.go:262-274 | tasks that finish out of order leave a row with older bytes than the history holds |
| `RelayRestart.RestartIsTransparent` | ggcode-relay/store.go:174-280 | at every moment of every orderly run, with any number of earlier restarts, crash and restore bring back exactly the stored entries in order; the history and every cursor's replay are rebuilt entry for entry if and only if every entry's row is stored, which holds when nothing is pending or given up |
| `RelayRestart.HistorySurvivesRestarts` | ggcode-relay/relay.go:131-148 | at every moment of every orderly run the session's history is what the store held at the start and every event forwarded since, less exactly what some crash found unstored |
| `RelayRestart.NothingLost` | ggcode-relay/relay.go:131-148 | if every crash finds nothing pending or given up, that is everything, across all crashes and restores |
| `RelayRestart.RestartRestoresSessionIff` | ggcode-relay/store.go:245-256 | a restart restores the room's session if and only if the last committed task that names a session names it |
| `RelayRestart.RestartBringsRow` | ggcode-relay/relay.go:131-148 | with the session come the epoch and descriptive fields of the room's row |
| `RelayRestart.LateCommitRevivesSession` | ggcode-relay/store.go:245-256 | an old session's event committed after the new session's row brings the old session back |
| `RelayCursors.CursorProvenance` | ggcode-relay/relay.go:904-936 | in every run a stored cursor was acknowledged by the client id's holder while the room was in the session its row names |
| `RelayCursors.HelloSkipsIff` | ggcode-relay/relay.go:702-731 | in every reachable state a resume_hello leaves out entries of the current history if and only if it does not declare another session and the cursor it goes by occurs in that history; that cursor is the connection's own, chosen at its last resume or acknowledged since, or else the stored one, acknowledged in the session its row names |
| `RelayCursors.ResumeFromCursor` | ggcode-relay/relay.go:720-731 | a resume_from goes by the id it carries, whatever is stored, unless it declares another session |
| `RelayCursors.ResumeFromSkipsIff` | ggcode-relay/relay.go:720-731 | it leaves out entries if and only if it declares no other session and the history holds its id |
| `RelayCursors.ResumeReplays` | ggcode-relay/relay.go:696-816 | in every reachable state a resume of either kind and key_ready queue a prefix of the history after the id asked from, all of it if it fits |
| `RelayCursors.ResumeWaits` | ggcode-relay/relay.go:709-745 | the resumed connection holds its id, is not ready and waits for its key |
| `RelayCursors.LeftOutUndeliveredIff` | ggcode-relay/relay.go:564-587 | an entry left out by a cursor was never queued to the client id if and only if none of the id's connections was ready, reading and with room when it was sent, and none had it in a replay |
| `RelayCursors.SkippedIff` | ggcode-relay/relay.go:186-203 | a replay leaves out entries exactly when its cursor names one, and left-out part and replay make up the history |
| `RelayCursors.ForeignCursorHidesEvents` | ggcode-relay/relay.go:702-731 | a cursor acknowledged in one session hides every event of the next, none of them ever queued to the returning client |
| `RelayCursors.SessionAcksVanish` | ggcode-relay/relay.go:916-919 | a client that stays connected across a change of session is sent the new session's events, and no sequence of acknowledgements of them changes cursor, tasks or store |
| `RelayNotices.TransientReachesAll` | ggcode-relay/relay.go:568-587 | a transient event reaches every client, resumed or not, and leaves no other trace |
| `RelayNotices.EventReachesReady` | ggcode-relay/relay.go:574-587 | a new event with an id reaches exactly the clients that have finished resuming |
| `RelayNotices.DuplicateIsQuiet` | ggcode-relay/relay.go:560-566 | a recent duplicate replaces its entry and reaches no one |
| `RelayNotices.ClientEventReachesHost` | ggcode-relay/relay.go:483-524 | a client's event always reaches the host and no one else, and is persisted exactly if new and named |
| `RelayNotices.ActivationTells` | ggcode-relay/relay.go:643-678 | exactly the clients are told of an active_session; each descriptive field given replaces the room's |
| `RelayNotices.MessageSessionFirst` | ggcode-relay/relay.go:606-641 | an active_session binds the session in the message, else the one in its data, and does nothing without |
| `RelayNotices.ResumeTells` | ggcode-relay/relay.go:727-752 | a resuming client is told session, epoch and descriptive fields |
| `RelayNotices.ResumeWithoutID` | ggcode-relay/relay.go:697-700 | a resume without a client id is answered with an error and changes nothing else |
| `RelayNotices.AcknowledgementTells` | ggcode-relay/relay.go:770-790 | the acknowledgement counts the backlog and calls the replay full exactly if there is no cursor |
| `RelayNotices.StrayKeyReady` | ggcode-relay/relay.go:826-838 | a key_ready under another id, or from a connection that is not waiting, does nothing |
| `RelayNotices.KeyReadyTells` | ggcode-relay/relay.go:792-824 | any other resumes the client and tells the host how far the history reaches |
| `RelayNotices.NotifyTells` | ggcode-relay/relay.go:1528-1553 | the host is told session, epoch, length and last id of the history |
| `RelayNotices.TakeoverTells` | ggcode-relay/relay.go:1447-1477 | a host that takes over ends the old one's share and is not ready yet; an expired room stays without |
| `RelayNotices.DepartureTells` | ggcode-relay/relay.go:390-408 | a host that goes away leaves the room waiting and tells the clients, unless the room is gone |
| `RelayNotices.LastClientRemoves` | ggcode-relay/relay.go:1017-1034 | the last client to leave a room without host and timer takes the room with it, no other |
| `RelayNotices.StopTells` | ggcode-relay/relay.go:1199-1226 | a stop drops the room, tells everyone and hands over the rows' deletion |
| `RelayNotices.ExpiryTells` | ggcode-relay/relay.go:1140-1171 | expiry takes only a room without a host, marks it and tells every client |
| `RelayNotices.CrashEndsEverything` | ggcode-relay/relay.go:985-998 | a restart ends every connection and forgets rooms, admissions and pending tasks, and keeps the store |
| `RelayNotices.AdmittedUnderReadyHost` | ggcode-relay/relay.go:1346-1390 | in every run a client is let in only while the attached host itself has said that it is ready |
| `RelayNotices.EveryClientWasLetIn` | ggcode-relay/relay.go:1346-1390 | in every run every client was let in under a ready host |
| `RelayNotices.ReadyHostAdmits` | ggcode-relay/relay.go:1360-1371 | while such a host is attached every newcomer is let in |
| `RelayNotices.AdmittedJoins` | ggcode-relay/relay.go:1476-1491 | an admitted client becomes one of the room's, without cursor and not resumed |
| `RelayDelivery.QueuedIff` | ggcode-relay/relay.go:564-587 | in every run an event was queued on a client's connection if and only if the host sent it live while the connection was one of the room's clients, had finished resuming, was reading and had room, or a replay for it included it |
| `RelayDelivery.BroadcastSkips` | ggcode-relay/relay.go:574-584 | a broadcast leaves alone who is not a client and, if the event has an id, every client that has not finished resuming |
| `RelayDelivery.NothingBeforeResume` | ggcode-relay/relay.go:577-579 | in every run a connection that never finished a resume was never queued an event |
| `RelayDelivery.ResumedOnceNoRepeats` | ggcode-relay/relay.go:792-824 | a connection that resumed once holds exactly the replayed part and the host's events since, and with distinct ids no id twice |
| `RelayDelivery.ConnectionCursorIsMax` | ggcode-relay/relay.go:904-922 | in every run a connection's cursor is the largest of the cursor its last resume chose and the ids it acknowledged since, across sessions |
| `RelayDelivery.AckRecordedIff` | ggcode-relay/relay.go:904-936 | in every run an acknowledgement by its id's holder is recorded, with one cursor write, if and only if it exceeds all of those; otherwise nothing changes |
| `RelayDelivery.SaveRecordedIff` | ggcode-relay/store.go:651-667 | the write moves the stored cursor if and only if there is none or it is smaller, of whatever session |
| `RelayStale.StaleRequestIgnored` | ggcode-relay/relay.go:526-538 | a displaced host's broadcast, active_session, server_ready, stop_sharing or detach changes nothing |
| `RelayStale.DisplacedHostIsInert` | ggcode-relay/relay.go:390-418 | all requests of a displaced host can be deleted from any run without changing the resulting state |
| `RelayStale.SupersededClientIsInert` | ggcode-relay/relay.go:904-922 | all acknowledgements of a superseded connection can be deleted from any run until it resumes again |
| `RelayStale.StaleDetachKeepsHolders` | ggcode-relay/relay.go:410-418 | its departure keeps every id's holder and every connection as they were |
| `RelayStale.ResumeSupersedes` | ggcode-relay/relay.go:716-719 | a resume under a held id moves the id, makes the old connection superseded and closes it |
| `HubLifecycle.LifecycleAlways` | ggcode-relay/relay.go:1140-1177 | under every interleaving of lock sections each room sits under its own token, an expired room has no server and is not in the hub, and a server is attached only by its own registration |
| `HubLifecycle.ExpiredForever` | ggcode-relay/relay.go:1464-1473 | an expired room never gets a server and never returns to the hub in any continuation |
| `HubLifecycle.HubHoldsExactly` | ggcode-relay/relay.go:1000-1044 | after every run the hub holds exactly the rooms neither expired nor dropped |
| `HubLifecycle.AttachedInHubIff` | ggcode-relay/relay.go:1199-1207 | a room with an attached host is in the hub if and only if it was not dropped |
| `HubLifecycle.OrphanedHost` | ggcode-relay/relay.go:1199-1216 | a host's stop_sharing inside another's registration leaves the new host attached to a room outside the hub, with nothing pending that would detach it |
| `HubLifecycle.LeavesHubOnly` | ggcode-relay/relay.go:1017-1226 | in every reachable hub a room with a host leaves only by a host's stop; one without by expiry or when found empty and without a timer |
| `HubLifecycle.TimerAfter` | ggcode-relay/relay.go:1122-1138 | a room's timer runs from its scheduling until a host attaches, the room expires or is destroyed |
| `HubLifecycle.TakeOutcome` | ggcode-relay/relay.go:1447-1475 | a registration that finds no host attaches unless the room expired |
| `HubLifecycle.LeaveOutcome` | ggcode-relay/relay.go:390-402 | leaving takes a host off its own room and no other |
| `HubLifecycle.StopDestroysOwnRoomIff` | ggcode-relay/relay.go:840-856 | in every reachable hub a host's stop_sharing destroys its own room if and only if that room neither expired nor was dropped; else it destroys whatever room now has the token |
| `HubLifecycle.StopperWasServer` | ggcode-relay/relay.go:845-853 | in every run whoever is about to destroy a room asked for it as that room's server |
| `HubLifecycle.OrphanStopsAnother` | ggcode-relay/relay.go:840-856 | such a host's stop_sharing removes the room of the host that came after it |
| `HubLifecycle.DisplacedUntoldIff` | ggcode-relay/relay.go:1447-1475 | in every reachable hub a host loses its room without leaving and without notice if and only if a registration that already turned one host away finishes |
| `HubLifecycle.UntoldHost` | ggcode-relay/relay.go:1456-1475 | four registrations for one room in which that happens |
| `HubLifecycle.Hub.GetOrCreateRoom` | ggcode-relay/relay.go:1000-1009 | returns the token's room, never an expired one, creating it if absent |
| `HubLifecycle.Hub.TakeRoom` | ggcode-relay/relay.go:1447-1456 | first registration section, keeping the lifecycle invariant |
| `HubLifecycle.Hub.RetakeRoom` | ggcode-relay/relay.go:1456-1465 | second section: a host that slipped in is turned away |
| `HubLifecycle.Hub.FinishTakeover` | ggcode-relay/relay.go:1466-1475 | third section: attaches without looking for another host |
| `HubLifecycle.Hub.AttachServer` | ggcode-relay/relay.go:1466-1475 | attaches, or rejects when the room expired meanwhile |
| `HubLifecycle.Hub.ExpireRoom` | ggcode-relay/relay.go:1140-1157 | refused while a server is attached; otherwise marked and dropped under both locks |
| `HubLifecycle.Hub.OnStopSharing` | ggcode-relay/relay.go:840-853 | only the room's current server goes on to the destruction |
| `HubLifecycle.Hub.DestroyStopped` | ggcode-relay/relay.go:854-855 | the destruction goes by token and keeps the lifecycle invariant |
| `HubLifecycle.Hub.DestroyRoom` | ggcode-relay/relay.go:1199-1207 | whatever room the hub holds under the token is dropped |
| `HubLifecycle.Hub.DetachDestroyed` | ggcode-relay/relay.go:1209-1223 | the dropped room's host is detached and is the one told |
| `HubLifecycle.Hub.RemoveRoomIfEmpty` | ggcode-relay/relay.go:1017-1034 | only the hub's own room, without server, clients and timer, is dropped |
| `Catalog.Snapshot.Resolve` | ggcode-relay/model_catalog.go:408-432 | with distinct pairs the answer depends on the entries alone, though cached lists are re-sorted, and equals the plain search over the entry list for every unambiguous request |
| `Catalog.Snapshot.ResolveAll` | ggcode-relay/model_catalog.go:408-432 | in every sequence of lookups each gets the answer it would get alone |
| `Catalog.Snapshot.BuildIndex` | ggcode-relay/model_catalog.go:379-396 | the two indexes hold exactly the entries with non-empty normalised ids |
| `Catalog.Snapshot.SortBuckets` | ggcode-relay/model_catalog.go:397-405 | sorting the lists loses and adds nothing |
| `Catalog.Snapshot.PickExact` | ggcode-relay/model_catalog.go:447-472 | the head of the re-sorted cached list is the preferred entry |
| `Catalog.SortedHeadIsBest` | ggcode-relay/model_catalog.go:447-472 | however a list was arranged before, the head after sorting is the entry a single pass prefers |
| `Catalog.BestPrefers` | ggcode-relay/model_catalog.go:447-472 | no entry of the list is of an earlier requested provider than the preferred one, nor of the same rank with a longer model id, nor then earlier by provider and model id |
| `Catalog.BestIsRequested` | ggcode-relay/model_catalog.go:453-460 | the preferred entry is of a requested provider whenever the list has one |
| `Catalog.PrecedesOrder` | ggcode-relay/model_catalog.go:452-470 | the comparator is a strict order, total on entries with different ids |
| `Catalog.ExactAnswerIsForeign` | ggcode-relay/model_catalog.go:413-421 | a model_exact answer never belongs to a requested provider |
| `Catalog.SearchAnswers` | ggcode-relay/model_catalog.go:408-432 | the kind of answer exactly: exact pair, else exact model, else prefix, else nothing, with an entry that fits under the version served |
| `Catalog.PairAnswerIsFirst` | ggcode-relay/model_catalog.go:413-418 | an exact pair is of the first requested provider that has one, and the last listed for it |
| `Catalog.InexactAnswerPreferred` | ggcode-relay/model_catalog.go:447-472 | an inexact answer is preferred to every other entry that fits |
| `Catalog.InexactAnswerRequested` | ggcode-relay/model_catalog.go:422-432 | a prefix answer is of a requested provider whenever a requested provider has a matching entry |
| `Catalog.CandidatesStartWithProvider` | ggcode-relay/model_catalog.go:474-515 | the requested provider is tried first, and otherwise exactly its aliases |
| `Catalog.IndexedAnswerIsForeign` | ggcode-relay/model_catalog.go:413-421 | the same for the indexed lookup, ambiguous requests included |
| `Catalog.IndexLookup` | ggcode-relay/model_catalog.go:387-396 | with NUL-free provider ids the lookup of an unambiguous request finds exactly the last entry of the pair |
| `Catalog.LookupExactIff` | ggcode-relay/model_catalog.go:387-396 | the index agrees with the list for every catalog with NUL-free provider ids if and only if the requested provider has no NUL, begins with one, or splits at its first NUL into ids no entry can have |
| `Catalog.AnswerExactIff` | ggcode-relay/model_catalog.go:408-432 | the same at the level of the answer: it is the plain search's for every such catalog if and only if every requested provider is unambiguous |
| `Catalog.ImageIffFixed` | ggcode-relay/model_catalog.go:521-523 | for a normalisation that is idempotent the condition is checked by normalising the two halves |
| `Catalog.PairKeyInjective` | ggcode-relay/model_catalog.go:517-519 | the joined key determines both parts when provider ids have no NUL |
| `Catalog.NulRequestMisfires` | ggcode-relay/model_catalog.go:414-417 | provider "a\0b" with model "c" is answered with the entry of "a" and "b\0c" as an exact match where the search finds nothing |
| `Catalog.ProviderMatchCandidates` | ggcode-relay/model_catalog.go:474-515 | the alias loop returns the non-empty normalised candidates without repeats |
| `CatalogRefresh.ConsistentAlways` | ggcode-relay/model_catalog.go:164-234 | through every sequence of successes, failures and restarts a live snapshot's version is the recorded commit and its entries are that commit's |
| `CatalogRefresh.UnchangedPathIsCurrent` | ggcode-relay/model_catalog.go:173-189 | a refresh that skips the download was already serving exactly the fetched commit |
| `CatalogRefresh.RefreshServesFetchedIff` | ggcode-relay/model_catalog.go:164-215 | a refresh ends up serving the commit it was told about if and only if it already did or could fetch and store it |
| `CatalogRefresh.FailureKeepsServing` | ggcode-relay/model_catalog.go:217-234 | a failed refresh changes neither what is served nor what a restart would serve |
| `CatalogRefresh.StatusReports` | ggcode-relay/model_catalog.go:164-234 | the status after a refresh, for success and failure; a commit that could not be served is recorded only while nothing is served |
| `CatalogRefresh.StateRowRemembers` | ggcode-relay/store.go:525-553 | writing the state row never forgets a commit id or a success |
| `CatalogRefresh.RestartShows` | ggcode-relay/model_catalog.go:104-119 | a restart shows what the state row says and serves the stored entries |
| `CatalogRefresh.CatalogManager.Refresh` | ggcode-relay/model_catalog.go:164-215 | the whole new state of snapshot, status and database |
| `CatalogRefresh.CatalogManager.RecordFailure` | ggcode-relay/model_catalog.go:217-234 | the commit id is recorded only while nothing is served |
| `CatalogRefresh.CatalogManager.UpsertModelCatalogState` | ggcode-relay/store.go:525-553 | an empty commit id or missing success time keeps the stored one |
| `LogStream.DrainsCover` | desktop/wailskit/logstream.go:53-104 | for every run the drains cover the sequence numbers with no gap and no overlap, markers standing for dropped runs |
| `LogStream.DrainGivesLines` | desktop/wailskit/logstream.go:83-104 | a line handed out is the line written under its number |
| `LogStream.DrainDropsIff` | desktop/wailskit/logstream.go:66-104 | lines are dropped exactly when more are undelivered than the queue holds, then only the excess, behind one marker |
| `LogStream.WriteAdds` | desktop/wailskit/logstream.go:53-81 | a write adds the next line exactly while the stream is enabled |
| `LogStream.RecentIsEnd` | desktop/wailskit/logstream.go:106-122 | the recent lines are the end of what was written |
| `LogStream.Stream.Write` | desktop/wailskit/logstream.go:53-81 | ring and capped queue agree with the full list of lines after a write |
| `LogStream.Stream.Drain` | desktop/wailskit/logstream.go:83-104 | marker and queued lines, with the marker's number and count exact |
| `LogStream.Stream.History` | desktop/wailskit/logstream.go:106-122 | the last min(n, capacity, written) lines in order |
| `ShellArgs.ParseShellArgs` | desktop/wailskit/mcp.go:418-487 | the byte loop computes the parse, and never reports an unterminated escape |
| `ShellArgs.ParseUndoesQuoting` | desktop/wailskit/mcp.go:418-487 | every list of arguments has a quoted text that parses back to exactly that list |
| `ShellArgs.ParseWords` | desktop/wailskit/mcp.go:459-473 | words without quotes and backslashes come back whatever blanks surround them |
| `ShellArgs.QuotedTextIsOneArgument` | desktop/wailskit/mcp.go:444-473 | quotes of either kind keep their text one argument, blanks, empty text and the other quote included, and join it to a word before them |
| `ShellArgs.OpenQuoteIsAnError` | desktop/wailskit/mcp.go:474-477 | a quote that is not closed is an error that names it |
| `ShellArgs.BackslashEscapesQuotes` | desktop/wailskit/mcp.go:428-443 | a backslash makes a quote of either kind ordinary and is itself before anything else |
| `ShellArgs.UnterminatedEscapeUnreachable` | desktop/wailskit/mcp.go:478-480 | the unterminated-escape error is unreachable for every input |
| `Trace.Conservation` | ggcode-relay/trace.go:83-132 | for every key and run, calls equal plain lines plus calls behind tail lines plus pending calls |
| `Trace.WritesIff` | ggcode-relay/trace.go:83-104 | a call writes its line exactly when its key is new or was last seen longer ago than the window |
| `Trace.BurstIsTwoLines` | ggcode-relay/trace.go:83-132 | of a burst only the first call is written, and a flush reports all others in one tail line with the last summary |
| `Trace.EveryNth` | ggcode-relay/trace.go:62-81 | of the samples of a new key every n-th is written, with its number |
| `Trace.FlushForgetsIff` | ggcode-relay/trace.go:110-122 | a flush forgets a key exactly when nothing of it is pending and it is older than the limit |
| `Trace.FlushReportsIff` | ggcode-relay/trace.go:124-132 | a flush after the window reports everything pending if and only if the last summary is not empty |
| `Trace.TraceLogger.LogAt` | ggcode-relay/trace.go:83-104 | emit, count or flush-and-emit, with the whole new state |
| `Trace.TraceLogger.LogEveryN` | ggcode-relay/trace.go:62-81 | every n-th sample is emitted and pending counts are untouched |
| `Trace.TraceLogger.FlushAgedAt` | ggcode-relay/trace.go:110-122 | visits every key exactly once in some order, flushing and deleting aged states |
| `Trace.TraceLogger.FlushPendingLocked` | ggcode-relay/trace.go:124-132 | one tail line for everything pending, or nothing |
| `Utf8.Reassembles` | cmd/ggcode/plain_lineedit.go:141-168 | from any accumulator, the encoding of any wide scalar values emits exactly those other than U+FFFD, ending empty unless the last was U+FFFD |
| `Utf8.ReassemblesExactly` | cmd/ggcode/plain_lineedit.go:141-168 | without U+FFFD, exactly the encoded values are emitted and the accumulator ends empty, whatever it held before |
| `Utf8.FeedOne` | cmd/ggcode/plain_lineedit.go:158-167 | one encoding emits its rune on its last byte, U+FFFD excepted |
| `Utf8.FeedNext` | cmd/ggcode/plain_lineedit.go:158-167 | after any bytes, one more encoding emits just its rune more |
| `Utf8.FeedPrefix` | cmd/ggcode/plain_lineedit.go:142-157 | before its last byte an encoding only fills the accumulator |
| `Utf8.AccumulatorIsPartial` | cmd/ggcode/plain_lineedit.go:141-168 | whatever bytes arrive the accumulator holds a lead byte and at most two continuation bytes, or nothing |
| `Utf8.EmitsOnlyEncodings` | cmd/ggcode/plain_lineedit.go:158-162 | whatever the bytes, an emitted rune is a wide scalar value and the gathered bytes are its encoding |
| `Utf8.DecodeEncode` | cmd/ggcode/plain_lineedit.go:159-159 | decoding inverts encoding |
| `Utf8.TwoByteLayout` | cmd/ggcode/plain_lineedit.go:159-159 | the two-byte layout of section 3 of RFC 3629 |
| `Utf8.ThreeByteLayout` | cmd/ggcode/plain_lineedit.go:159-159 | the three-byte layout |
| `Utf8.FourByteLayout` | cmd/ggcode/plain_lineedit.go:159-159 | the four-byte layout |
| `Utf8.EncodeDecode` | cmd/ggcode/plain_lineedit.go:159-159 | encoding inverts decoding on complete multi-byte sequences |

## Left out

- WebSocket reads, writes, deadlines, pings and close frames; a connection is a bounded queue with a done and a closed flag.
- HTTP handlers, share tickets (`share_auth.go`), statistics, admin wipe and logging; they only observe or reset the state.
- Wall-clock timers: expiry and cleanup are steps that may happen at any time.
- Projection hashes and the other message fields that the relay carries without acting on them.
- Relaying of key offers, key accepts, language changes and pongs: one step that queues any other message to any connection stands for all of them.
- The global event and session tables of `store.go`, which no modelled handler reads.
- Two rooms at once in the relay machine: `Relay` follows one room object; rooms together are the subject of `HubLifecycle`.
- RoomServer.LiveRoom.OnStopSharing: what the stop of a host of a dropped room does to another room under the same token is not part of one room's memory; `HubLifecycle.StopDestroysOwnRoomIff` states it.
- RestartIsTransparent: one session and one epoch with increasing ids, no row deletion, and stored rooms restored before use, because memory is cleared on a change of session or epoch while stored events are not, and a reload sorts by id.
- Catalog.Snapshot.Resolve: the cached slice is a sequence that the method reassigns rather than an array sorted in place; concurrent lookups are not modelled.
- Catalog.Snapshot.PickPrefix: its matches are a fresh list, so only the answer matters.
- Fetching and decoding catalog files: what a commit holds is the parameter `content`.
- The shell parser's error text and the log stream's overflow text: their arguments are kept, the formatting is not.
- The line editor around the assembler: echo, cursor movement and control keys.
