/** One shared room of the relay, with its connections and background tasks.
    The handlers that run under the room's send lock are atomic, so each is a function from the room's
    memory to its next memory. Connections are numbered; a connection never comes back once it is gone. */
module Relay {
  import opened Messages
  import opened History
  import opened Lex
  import opened Store

  type PeerId = nat

  const SEND_CAPACITY := 2048
  const REPLAY_HEADROOM := 64
  const MAX_PERSIST_ATTEMPTS := 3

  datatype Role = Server | Client

  /** `written` is what the writer has taken off the queue. `done` marks a reader that has returned and
      `closed` a connection the relay has decided to close. */
  datatype Peer = Peer(
    role: Role, clientID: string, ready: bool, waiting: bool, cursor: string,
    written: seq<Raw>, queue: seq<Raw>, done: bool, closed: bool)

  /** `live` is whether the hub still holds the room, `expired` whether it was dropped by expiry,
      `retained` whether its offline timer is set, and `restored` whether its history came from the store. */
  datatype Room = Room(
    live: bool, expired: bool, sessionID: string, epoch: nat, serverReady: bool, retained: bool, restored: bool,
    history: seq<RoomEvent>, server: Option<PeerId>, clients: set<PeerId>, byID: map<string, PeerId>,
    meta: Meta)

  datatype Task =
    | PersistEvent(origin: PeerId, msg: Message, raw: Raw, failures: nat)
    | PersistSession(sid: string, epoch: nat, meta: Meta)
    | SaveCursor(client: string, sid: string, event: string)
    | DestroyRows

  /** `admitted` holds the clients that were let in and are not attached yet; `abandoned` lists the
      persist tasks that were given up and reported as failed. */
  datatype Memory = Memory(
    room: Room, peers: map<PeerId, Peer>, admitted: set<PeerId>, tasks: seq<Task>, abandoned: seq<Task>)

  const NEW_ROOM := Room(true, false, "", 0, false, false, false, [], None, {}, map[], NO_META)

  function NewPeer(role: Role, clientID: string): Peer {
    Peer(role, clientID, false, false, "", [], [], false, false)
  }

  // ---- Queues ----

  /** Never blocks: a full queue drops the message and closes the connection. */
  function Enqueue(q: Peer, raw: Raw): Peer {
    if q.done then q
    else if |q.queue| < SEND_CAPACITY then q.(queue := q.queue + [raw])
    else q.(closed := true)
  }

  function SendTo(peers: map<PeerId, Peer>, q: PeerId, raw: Raw): map<PeerId, Peer> {
    if q in peers then peers[q := Enqueue(peers[q], raw)] else peers
  }

  function SendAll(peers: map<PeerId, Peer>, targets: set<PeerId>, raw: Raw): map<PeerId, Peer> {
    map q | q in peers :: if q in targets then Enqueue(peers[q], raw) else peers[q]
  }

  function Drained(q: Peer, n: nat): Peer {
    if q.done || n == 0 then q
    else
      var k := if n <= |q.queue| then n else |q.queue|;
      q.(written := q.written + q.queue[..k], queue := q.queue[k..])
  }

  // ---- Session binding ----

  /** The locked part of a binding. `expected` is the session read in an earlier lock section: if the
      room has moved to a third session since, the binding gives up. */
  function BindFrom(r: Room, expected: string, sid: string, epoch: nat, replace: bool): Room {
    if sid == "" || (expected != sid && r.sessionID != expected && r.sessionID != sid)
    then r.(epoch := AtLeastOne(r.epoch))
    else
      var e := AtLeastOne(epoch);
      var r' := r.(sessionID := sid, epoch := e);
      if r.sessionID != sid || replace || (r.epoch != 0 && r.epoch != e)
      then r'.(history := [], restored := false)
      else r'
  }

  /** A binding with nothing between its two lock sections. */
  function Bind(r: Room, sid: string, epoch: nat, replace: bool): Room {
    BindFrom(r, r.sessionID, sid, epoch, replace)
  }

  function Hydrated(r: Room, state: Persisted): Room {
    if r.sessionID != "" || r.history != [] || (state.sessionID == "" && state.history == []) then r
    else r.(sessionID := state.sessionID, epoch := state.epoch, meta := state.meta,
            history := state.history, restored := true)
  }

  function Hydrate(m: Memory, state: Persisted): Memory {
    m.(room := Hydrated(m.room, state))
  }

  // ---- Joining and leaving ----

  predicate Running(m: Memory, p: PeerId, role: Role) {
    p in m.peers && !m.peers[p].done && m.peers[p].role == role
  }

  predicate IsServer(m: Memory, p: PeerId) {
    Running(m, p, Server) && m.room.server == Some(p)
  }

  function Tail(h: seq<RoomEvent>): string {
    if h == [] then "" else h[|h| - 1].eventID
  }

  /** Tells the host that a client connected or finished resuming. */
  function NotifyServer(m: Memory): Memory {
    match m.room.server
    case None => m
    case Some(srv) =>
      var r := m.room.(epoch := AtLeastOne(m.room.epoch));
      var note := Notice(Connected, r.sessionID, r.epoch).(count := |r.history|, lastEventID := Tail(r.history));
      m.(room := r, peers := SendTo(m.peers, srv, Json(note)))
  }

  /** A client is let in while the hub holds the room and a ready host is attached ... */
  function Admit(m: Memory, p: PeerId): Memory {
    if p in m.peers || !m.room.live || m.room.server.None? || !m.room.serverReady then m
    else m.(admitted := m.admitted + {p})
  }

  /** ... and attached in a later lock section, whatever became of host and room meanwhile. */
  function JoinClient(m: Memory, p: PeerId, clientID: string): Memory {
    if p in m.peers || p !in m.admitted then m
    else
      NotifyServer(m.(room := m.room.(clients := m.room.clients + {p}), admitted := m.admitted - {p},
                      peers := m.peers[p := NewPeer(Client, clientID)]))
  }

  /** A new host takes over from any host still attached; an expired room turns it away. */
  function JoinServer(m: Memory, p: PeerId, clientID: string): Memory {
    if p in m.peers then m
    else
      var stop := Json(Notice(SharingStopped, "", 0));
      var peers := if m.room.server.Some? then SendTo(m.peers, m.room.server.value, stop) else m.peers;
      var r := if m.room.server.Some? then m.room.(server := None, serverReady := false) else m.room;
      if m.room.expired then m.(room := r, peers := peers)
      else m.(room := r.(server := Some(p), serverReady := false, retained := false),
              peers := peers[p := NewPeer(Server, clientID)])
  }

  function Hangup(m: Memory, p: PeerId): Memory {
    if p in m.peers then m.(peers := m.peers[p := m.peers[p].(done := true)]) else m
  }

  function Detach(m: Memory, p: PeerId, roomDestroyed: bool): Memory {
    if p !in m.peers || !m.peers[p].done then m
    else if m.peers[p].role == Server then ServerDetached(m, p, roomDestroyed)
    else ClientDetached(m, p)
  }

  function ServerDetached(m: Memory, p: PeerId, roomDestroyed: bool): Memory {
    if m.room.server != Some(p) then m
    else
      var r := m.room.(server := None, serverReady := false);
      if roomDestroyed || !r.live then m.(room := r)
      else
        var notice := Json(Notice(ServerOffline, r.sessionID, 0));
        m.(room := r.(retained := true), peers := SendAll(m.peers, r.clients, notice))
  }

  function ClientDetached(m: Memory, p: PeerId): Memory
    requires p in m.peers
  {
    var id := m.peers[p].clientID;
    var byID := if id != "" && id in m.room.byID && m.room.byID[id] == p then m.room.byID - {id} else m.room.byID;
    RemoveIfEmpty(m.(room := m.room.(clients := m.room.clients - {p}, byID := byID)))
  }

  function RemoveIfEmpty(m: Memory): Memory {
    if m.room.live && m.room.server.None? && m.room.clients == {} && !m.room.retained
    then m.(room := m.room.(live := false), tasks := m.tasks + [DestroyRows])
    else m
  }

  function StopSharing(m: Memory, p: PeerId): Memory {
    if !IsServer(m, p) || !m.room.live then m
    else
      var stop := Json(Notice(SharingStopped, "", 0));
      m.(room := m.room.(live := false, retained := false, server := None),
         peers := SendTo(SendAll(m.peers, m.room.clients, stop), p, stop),
         tasks := m.tasks + [DestroyRows])
  }

  function Expire(m: Memory): Memory {
    if !m.room.live || m.room.server.Some? then m
    else
      m.(room := m.room.(live := false, expired := true, retained := false),
         peers := SendAll(m.peers, m.room.clients, Json(Notice(SharingStopped, "", 0))),
         tasks := m.tasks + [DestroyRows])
  }

  // ---- Events ----

  /** The message as the relay forwards it: bound to the room's session and epoch. */
  function Stamp(msg: Message, r: Room): Message {
    msg.(sessionID := if msg.sessionID == "" then r.sessionID else msg.sessionID, generation := 0, epoch := r.epoch)
  }

  function Targets(m: Memory, eventID: string): set<PeerId> {
    if eventID == "" then m.room.clients
    else set q | q in m.room.clients && q in m.peers && m.peers[q].ready
  }

  /** The stamped event is appended, queued to its targets and handed to a persist task. */
  function Recorded(m: Memory, p: PeerId, wire: Raw): Memory {
    var m' := m.(room := m.room.(history := Append(m.room.history, EventOf(wire, Encrypted))));
    if !IsNew(m.room.history, wire.msg.eventID) then m'
    else
      m'.(peers := SendAll(m.peers, Targets(m, wire.msg.eventID), wire),
          tasks := if wire.msg.sessionID != "" && wire.msg.eventID != ""
                   then m.tasks + [PersistEvent(p, wire.msg, wire, 0)] else m.tasks)
  }

  function Broadcast(m: Memory, p: PeerId, msg: Message): Memory {
    if !IsServer(m, p) then m
    else
      var r := Bind(m.room, msg.sessionID, msg.epoch, false);
      Recorded(m.(room := r), p, Json(Stamp(msg, r)))
  }

  function ClientSend(m: Memory, p: PeerId, raw: Raw): Memory {
    if !Running(m, p, Client) then m
    else
      var isNew := IsNew(m.room.history, raw.msg.eventID);
      m.(room := m.room.(history := Append(m.room.history, EventOf(raw, ClientEncrypted))),
         peers := if m.room.server.Some? then SendTo(m.peers, m.room.server.value, raw) else m.peers,
         tasks := if isNew && raw.msg.sessionID != "" then m.tasks + [PersistEvent(p, raw.msg, raw, 0)] else m.tasks)
  }

  /** The session an active_session names, in the message or else in its data. */
  function Named(msg: Message, dataSession: string): Message {
    if msg.sessionID == "" then msg.(sessionID := dataSession) else msg
  }

  /** All clients are told the session, and its row is handed to a task. */
  function Announced(m: Memory, msg: Message, meta: Meta): Memory {
    m.(peers := SendAll(m.peers, m.room.clients, Json(msg.(generation := 0, epoch := m.room.epoch))),
       tasks := m.tasks + [PersistSession(msg.sessionID, m.room.epoch, meta)])
  }

  function Activate(m: Memory, p: PeerId, msg: Message, meta: Meta, replace: bool): Memory {
    if msg.sessionID == "" || !IsServer(m, p) then m
    else
      var r := m.room.(meta := Overlay(m.room.meta, meta));
      Announced(m.(room := Bind(r, msg.sessionID, msg.epoch, replace)), msg, meta)
  }

  // ---- Restores inside a handler ----

  /** A load that found nothing. */
  const NOTHING := Persisted("", 0, [], NO_META)

  /** The restore of a registering host takes only the room's own lock, so it can fall between the lock
      sections of a broadcast: inside the binding (`a`), before an unnamed event learns its session
      (`b`), and before the append (`c`). `NOTHING` stands for no restore. The result is the room and
      the stamped message just before the append. */
  function Prepared(r: Room, msg: Message, a: Persisted, b: Persisted, c: Persisted): (Room, Message) {
    var bound := BindFrom(Hydrated(r, a), r.sessionID, msg.sessionID, msg.epoch, false);
    var read := Hydrated(bound, b);
    if msg.sessionID == "" then
      var r' := read.(epoch := AtLeastOne(read.epoch));
      (Hydrated(r', c), Stamp(msg, r'))
    else
      (Hydrated(read, c), Stamp(msg, bound))
  }

  function BroadcastDuring(m: Memory, p: PeerId, msg: Message, a: Persisted, b: Persisted, c: Persisted): Memory {
    if !IsServer(m, p) then m
    else
      var (r, stamped) := Prepared(m.room, msg, a, b, c);
      Recorded(m.(room := r), p, Json(stamped))
  }

  /** The same for an active_session: before the binding (`a`) and inside it (`b`). */
  function ActivateDuring(
    m: Memory, p: PeerId, msg: Message, meta: Meta, replace: bool, a: Persisted, b: Persisted): Memory
  {
    if msg.sessionID == "" || !IsServer(m, p) then m
    else
      var r := Hydrated(m.room.(meta := Overlay(m.room.meta, meta)), a);
      Announced(m.(room := BindFrom(Hydrated(r, b), r.sessionID, msg.sessionID, msg.epoch, replace)), msg, meta)
  }

  function ServerReady(m: Memory, p: PeerId): Memory {
    if !IsServer(m, p) then m
    else m.(room := m.room.(serverReady := true, epoch := AtLeastOne(m.room.epoch)))
  }

  // ---- Resuming ----

  function ResumeCursor(q: Peer, r: Room, msg: Message, loaded: string): string {
    if msg.sessionID != "" && r.sessionID != "" && msg.sessionID != r.sessionID then ""
    else if msg.typ == ResumeFrom then msg.lastEventID
    else if q.cursor == "" then loaded
    else q.cursor
  }

  function SessionNotice(r: Room, clientID: string): Message {
    var body := if r.meta == NO_META then Opaque("") else SessionData(r.meta);
    Notice(ActiveSession, r.sessionID, r.epoch).(clientID := clientID, body := body)
  }

  function Superseded(r: Room, p: PeerId, clientID: string): Option<PeerId> {
    if clientID in r.byID && r.byID[clientID] != p then Some(r.byID[clientID]) else None
  }

  function CloseOld(peers: map<PeerId, Peer>, old_: Option<PeerId>): map<PeerId, Peer> {
    if old_.Some? && old_.value in peers then peers[old_.value := peers[old_.value].(closed := true)] else peers
  }

  function Resume(m: Memory, p: PeerId, msg: Message, loaded: string): Memory {
    if !Running(m, p, Client) then m
    else if msg.clientID == "" then m.(peers := SendTo(m.peers, p, Json(Notice(ErrorNotice, "", 0))))
    else
      var r := m.room.(byID := m.room.byID[msg.clientID := p], epoch := AtLeastOne(m.room.epoch));
      var q := m.peers[p].(clientID := msg.clientID, cursor := ResumeCursor(m.peers[p], m.room, msg, loaded),
                           ready := false, waiting := true);
      var peers := m.peers[p := Enqueue(q, Json(SessionNotice(r, msg.clientID)))];
      m.(room := r, peers := CloseOld(peers, Superseded(m.room, p, msg.clientID)))
  }

  /** The replay loop. `drains[i]` is how many messages the writer takes before the i-th iteration. */
  function Replay(q: Peer, evs: seq<RoomEvent>, drains: seq<nat>): Peer
    decreases |evs|
  {
    if evs == [] then q
    else
      var q' := Drained(q, if drains == [] then 0 else drains[0]);
      if |q'.queue| >= SEND_CAPACITY - REPLAY_HEADROOM then q'
      else Replay(Enqueue(q', evs[0].raw), evs[1..], if drains == [] then [] else drains[1..])
  }

  function ResumeNotice(r: Room, clientID: string, cursor: string): Message {
    Notice(ResumeAck, r.sessionID, r.epoch).(
      clientID := clientID, body := ResumeData(cursor == "", |After(r.history, cursor)|))
  }

  predicate CanFinish(m: Memory, p: PeerId, clientID: string) {
    && Running(m, p, Client) && m.peers[p].waiting
    && (clientID == "" || m.peers[p].clientID == "" || clientID == m.peers[p].clientID)
  }

  /** The connection after the resume acknowledgement is queued, before the replay. */
  function Acknowledged(m: Memory, p: PeerId): Peer
    requires p in m.peers
  {
    var r := m.room.(epoch := AtLeastOne(m.room.epoch));
    var q := m.peers[p].(ready := true, waiting := false);
    Enqueue(q, Json(ResumeNotice(r, q.clientID, q.cursor)))
  }

  function KeyReady(m: Memory, p: PeerId, clientID: string, drains: seq<nat>): Memory {
    if !CanFinish(m, p, clientID) then m
    else
      var r := m.room.(epoch := AtLeastOne(m.room.epoch));
      var q := Replay(Acknowledged(m, p), After(r.history, m.peers[p].cursor), drains);
      NotifyServer(m.(room := r, peers := m.peers[p := q]))
  }

  predicate HoldsID(m: Memory, p: PeerId) {
    p in m.peers && m.peers[p].clientID in m.room.byID && m.room.byID[m.peers[p].clientID] == p
  }

  function Ack(m: Memory, p: PeerId, eventID: string): Memory {
    if !Running(m, p, Client) || eventID == "" || !HoldsID(m, p) then m
    else
      var q := m.peers[p];
      if q.cursor != "" && !Less(q.cursor, eventID) then m
      else m.(peers := m.peers[p := q.(cursor := eventID)],
              tasks := m.tasks + [SaveCursor(q.clientID, m.room.sessionID, eventID)])
  }

  // ---- Other traffic, writer and task failures ----

  /** Any other message the relay queues: key exchange, language changes, pongs, notices. */
  function Control(m: Memory, q: PeerId, msg: Message): Memory {
    if msg.typ == Encrypted then m else m.(peers := SendTo(m.peers, q, Json(msg)))
  }

  function Drain(m: Memory, q: PeerId): Memory {
    if q in m.peers then m.(peers := m.peers[q := Drained(m.peers[q], 1)]) else m
  }

  function Without(tasks: seq<Task>, i: nat): seq<Task>
    requires i < |tasks|
  {
    tasks[..i] + tasks[i + 1..]
  }

  /** One failed attempt: retried up to the limit, then reported and its connection closed. */
  function TaskFailed(m: Memory, i: nat): Memory
    requires i < |m.tasks|
  {
    var task := m.tasks[i];
    if !task.PersistEvent? then m.(tasks := Without(m.tasks, i))
    else
      var failed := task.(failures := task.failures + 1);
      if failed.failures < MAX_PERSIST_ATTEMPTS then m.(tasks := m.tasks[i := failed])
      else
        var peers := if task.origin in m.peers
                     then m.peers[task.origin := m.peers[task.origin].(closed := true)] else m.peers;
        m.(tasks := Without(m.tasks, i), abandoned := m.abandoned + [failed], peers := peers)
  }
}

/** All interleavings of handlers, background tasks, maintenance and crashes over one room. */
module RelayMachine {
  import opened Messages
  import opened Store
  import opened Relay

  datatype State = State(mem: Memory, store: Tables, key: Key)

  datatype Step =
    | DoHydrate(loads: bool)
    | DoJoinServer(p: PeerId, clientID: string)
    | DoAdmit(p: PeerId)
    | DoJoinClient(p: PeerId, clientID: string)
    | DoBroadcast(p: PeerId, msg: Message)
    | DoClientSend(p: PeerId, raw: Raw)
    | DoActivate(p: PeerId, msg: Message, dataSession: string, meta: Meta, replace: bool)
    | DoServerReady(p: PeerId)
    | DoResume(p: PeerId, msg: Message, loads: bool)
    | DoKeyReady(p: PeerId, clientID: string, drains: seq<nat>)
    | DoAck(p: PeerId, eventID: string)
    | DoHangup(p: PeerId)
    | DoDetach(p: PeerId, roomDestroyed: bool)
    | DoStopSharing(p: PeerId)
    | DoExpire
    | DoControl(q: PeerId, msg: Message)
    | DoDrain(q: PeerId)
    | DoTask(i: nat, commits: bool, now: int)
    | DoCleanup(cutoff: int)
    | DoCrash

  predicate ByHost(step: Step) {
    step.DoJoinServer? || step.DoBroadcast? || step.DoActivate? || step.DoServerReady? || step.DoStopSharing?
  }

  predicate ByClient(step: Step) {
    step.DoAdmit? || step.DoJoinClient? || step.DoClientSend? || step.DoResume? || step.DoKeyReady? || step.DoAck?
  }

  function Init(key: Key, store: Tables): State {
    State(Memory(NEW_ROOM, map[], {}, [], []), store, key)
  }

  function TaskStore(t: Tables, key: Key, task: Task, now: int): Tables {
    match task
    case PersistEvent(_, msg, raw, _) => EventPersisted(t, key, msg, raw, now)
    case PersistSession(sid, epoch, meta) => SessionPersisted(t, key, sid, epoch, meta, now)
    case SaveCursor(client, sid, event) => CursorSaved(t, key, client, sid, event, now)
    case DestroyRows => RoomDestroyed(t, key)
  }

  /** Persisting an event without a session or an id succeeds without touching the store. */
  predicate IsNoOp(task: Task) {
    task.PersistEvent? && (task.msg.sessionID == "" || task.msg.eventID == "")
  }

  function RunTask(s: State, i: nat, commits: bool, now: int): State {
    if i >= |s.mem.tasks| then s
    else if !commits && !IsNoOp(s.mem.tasks[i]) then s.(mem := TaskFailed(s.mem, i))
    else s.(mem := s.mem.(tasks := Without(s.mem.tasks, i)), store := TaskStore(s.store, s.key, s.mem.tasks[i], now))
  }

  /** The process restarts: memory and pending tasks are lost, every connection is gone. */
  function Crash(s: State): State {
    s.(mem := Memory(NEW_ROOM, map q | q in s.mem.peers :: s.mem.peers[q].(done := true), {}, [], s.mem.abandoned))
  }

  function LoadsCursor(s: State, p: PeerId, client: string, loads: bool): string {
    if loads && p in s.mem.peers && s.mem.peers[p].cursor == "" then LoadedCursor(s.store, s.key, client) else ""
  }

  function Apply(s: State, step: Step): State {
    match step
    case DoHydrate(loads) => if loads then s.(mem := Hydrate(s.mem, LoadedRoom(s.store, s.key))) else s
    case DoJoinServer(p, id) => s.(mem := JoinServer(s.mem, p, id))
    case DoAdmit(p) => s.(mem := Admit(s.mem, p))
    case DoJoinClient(p, id) => s.(mem := JoinClient(s.mem, p, id))
    case DoBroadcast(p, msg) => if msg.typ == Encrypted then s.(mem := Broadcast(s.mem, p, msg)) else s
    case DoClientSend(p, raw) => if raw.msg.typ == Encrypted then s.(mem := ClientSend(s.mem, p, raw)) else s
    case DoActivate(p, msg, dataSession, meta, replace) =>
      if msg.typ == ActiveSession then s.(mem := Activate(s.mem, p, Named(msg, dataSession), meta, replace)) else s
    case DoServerReady(p) => s.(mem := ServerReady(s.mem, p))
    case DoResume(p, msg, loads) => s.(mem := Resume(s.mem, p, msg, LoadsCursor(s, p, msg.clientID, loads)))
    case DoKeyReady(p, id, drains) => s.(mem := KeyReady(s.mem, p, id, drains))
    case DoAck(p, eventID) => s.(mem := Ack(s.mem, p, eventID))
    case DoHangup(p) => s.(mem := Hangup(s.mem, p))
    case DoDetach(p, roomDestroyed) => s.(mem := Detach(s.mem, p, roomDestroyed))
    case DoStopSharing(p) => s.(mem := StopSharing(s.mem, p))
    case DoExpire => s.(mem := Expire(s.mem))
    case DoControl(q, msg) => s.(mem := Control(s.mem, q, msg))
    case DoDrain(q) => s.(mem := Drain(s.mem, q))
    case DoTask(i, commits, now) => RunTask(s, i, commits, now)
    case DoCleanup(cutoff) => s.(store := Cleaned(s.store, cutoff))
    case DoCrash => Crash(s)
  }

  /** The connection does not resume again during the run. */
  predicate NoResume(steps: seq<Step>, c: PeerId) {
    forall i :: 0 <= i < |steps| ==> !(steps[i].DoResume? && steps[i].p == c)
  }

  function Run(s: State, steps: seq<Step>): State {
    if steps == [] then s else Apply(Run(s, steps[..|steps| - 1]), steps[|steps| - 1])
  }
}
