/** The room and its handlers as the program runs them: fields updated in place, loops over history,
    clients and backlog. Each handler is proved to compute the corresponding step of `Relay`. */
module RoomServer {
  import opened Messages
  import opened History
  import opened Lex
  import opened Store
  import opened Relay

  class LiveRoom {
    var live: bool
    var expired: bool
    var sessionID: string
    var authorityEpoch: nat
    var serverReady: bool
    var retained: bool
    var restored: bool
    var history: seq<RoomEvent>
    var server: Option<PeerId>
    var clients: set<PeerId>
    var clientsByID: map<string, PeerId>
    var meta: Meta
    var peers: map<PeerId, Peer>
    var admitted: set<PeerId>
    var tasks: seq<Task>
    var abandoned: seq<Task>

    constructor ()
      ensures View() == Memory(NEW_ROOM, map[], {}, [], [])
    {
      live, expired, sessionID, authorityEpoch, serverReady := true, false, "", 0, false;
      retained, restored := false, false;
      history, server, clients, clientsByID, meta := [], None, {}, map[], NO_META;
      peers, admitted, tasks, abandoned := map[], {}, [], [];
    }

    function RoomView(): Room
      reads this
    {
      Room(live, expired, sessionID, authorityEpoch, serverReady, retained, restored,
           history, server, clients, clientsByID, meta)
    }

    function View(): Memory
      reads this
    {
      Memory(RoomView(), peers, admitted, tasks, abandoned)
    }

    method RegisterServer(p: PeerId, clientID: string) returns (attached: bool)
      requires p !in peers
      modifies this`server, this`serverReady, this`retained, this`peers
      ensures View() == JoinServer(old(View()), p, clientID)
      ensures attached == !expired
    {
      TurnAway();
      if expired {
        return false;
      }
      server, serverReady, retained := Some(p), false, false;
      peers := peers[p := NewPeer(Server, clientID)];
      return true;
    }

    /** A host still attached is detached and told so. */
    method TurnAway()
      modifies this`server, this`serverReady, this`peers
      ensures old(server).None? ==> View() == old(View())
      ensures old(server).Some? ==>
                server == None && !serverReady
                && peers == SendTo(old(peers), old(server).value, Json(Notice(SharingStopped, "", 0)))
    {
      if server.Some? {
        var displaced := server.value;
        server, serverReady := None, false;
        SendRaw(displaced, Json(Notice(SharingStopped, "", 0)));
      }
    }

    /** Let in only while the hub holds the room and a ready host is attached. */
    method AdmitClient(p: PeerId) returns (ok: bool)
      requires p !in peers
      modifies this`admitted
      ensures View() == Admit(old(View()), p)
      ensures ok == (live && server.Some? && serverReady)
    {
      if !live || server.None? || !serverReady {
        return false;
      }
      admitted := admitted + {p};
      return true;
    }

    /** Attached in a later lock section, without a second look at host and room. */
    method RegisterClient(p: PeerId, clientID: string)
      requires p !in peers && p in admitted
      modifies this`clients, this`peers, this`admitted, this`authorityEpoch
      ensures View() == JoinClient(old(View()), p, clientID)
      ensures p in clients && p in peers
    {
      clients, admitted := clients + {p}, admitted - {p};
      peers := peers[p := NewPeer(Client, clientID)];
      NotifyServerClientConnected();
    }

    method OnServerReady(p: PeerId)
      requires Running(View(), p, Server)
      modifies this`serverReady, this`authorityEpoch
      ensures View() == ServerReady(old(View()), p)
    {
      if server != Some(p) {
        return;
      }
      serverReady := true;
      EnsureAuthorityEpoch();
    }

    /** Looks back over at most the last 50 entries for a duplicate to replace. */
    method AppendEvent(ev: RoomEvent) returns (isNew: bool)
      modifies this`history
      ensures history == Append(old(history), ev)
      ensures isNew == IsNew(old(history), ev.eventID)
    {
      if ev.eventID == "" {
        return true;
      }
      var i := |history|;
      while i > 0 && i > |history| - DEDUP_WINDOW
        invariant WindowStart(history) <= i <= |history|
        invariant history == old(history)
        invariant FindRecent(history, ev.eventID) == FindBack(history, ev.eventID, WindowStart(history), i)
      {
        i := i - 1;
        if history[i].eventID == ev.eventID {
          history := history[i := ev];
          return false;
        }
      }
      history := history + [ev];
      return true;
    }

    method EventsAfter(cursor: string) returns (out: seq<RoomEvent>)
      ensures out == After(history, cursor)
    {
      if cursor == "" {
        return history;
      }
      for i := 0 to |history|
        invariant FirstIndex(history, cursor, 0) == FirstIndex(history, cursor, i)
      {
        if history[i].eventID == cursor {
          return history[i + 1..];
        }
      }
      return history;
    }

    method EnsureAuthorityEpoch()
      modifies this`authorityEpoch
      ensures authorityEpoch == AtLeastOne(old(authorityEpoch))
    {
      if authorityEpoch == 0 {
        authorityEpoch := 1;
      }
    }

    method SendRaw(q: PeerId, raw: Raw)
      modifies this`peers
      ensures peers == SendTo(old(peers), q, raw)
    {
      if q in peers {
        var peer := peers[q];
        if peer.done {
          return;
        }
        if |peer.queue| < SEND_CAPACITY {
          peers := peers[q := peer.(queue := peer.queue + [raw])];
        } else {
          peers := peers[q := peer.(closed := true)];
        }
      }
    }

    /** Sends to the targets one after the other, in any order. */
    method FanOut(targets: set<PeerId>, raw: Raw)
      modifies this`peers
      ensures peers == SendAll(old(peers), targets, raw)
    {
      var rest := targets;
      while rest != {}
        invariant rest <= targets
        invariant peers == SendAll(old(peers), targets - rest, raw)
        decreases |rest|
      {
        var q :| q in rest;
        SendRaw(q, raw);
        FanOutStep(old(peers), targets - rest, q, raw);
        assert targets - (rest - {q}) == targets - rest + {q};
        rest := rest - {q};
      }
      assert targets - rest == targets;
    }

    static lemma FanOutStep(all: map<PeerId, Peer>, sent: set<PeerId>, q: PeerId, raw: Raw)
      requires q !in sent
      ensures SendTo(SendAll(all, sent, raw), q, raw) == SendAll(all, sent + {q}, raw)
    {
    }

    static lemma SendToUpdated(all: map<PeerId, Peer>, p: PeerId, x: Peer, raw: Raw)
      ensures SendTo(all[p := x], p, raw) == all[p := Enqueue(x, raw)]
    {
    }

    method ClearHistory()
      modifies this`history, this`restored
      ensures history == [] && !restored
    {
      history, restored := [], false;
    }

    /** `between` is what a concurrent restore finds in the store between the two lock sections. */
    method BindRoomSession(sid: string, epoch: nat, replaceHistory: bool, between: Persisted)
      returns (bound: nat, changed: bool)
      modifies this`sessionID, this`authorityEpoch, this`meta, this`history, this`restored
      ensures RoomView() ==
              BindFrom(Hydrated(old(RoomView()), between), old(sessionID), sid, epoch, replaceHistory)
      ensures bound == authorityEpoch > 0
    {
      var expected := sessionID;
      var hydrated, count := HydrateLocked(between);
      bound, changed := BindLocked(expected, sid, epoch, replaceHistory);
    }

    method BindLocked(expected: string, sid: string, epoch: nat, replaceHistory: bool)
      returns (bound: nat, changed: bool)
      modifies this`sessionID, this`authorityEpoch, this`history, this`restored
      ensures RoomView() == BindFrom(old(RoomView()), expected, sid, epoch, replaceHistory)
      ensures bound == authorityEpoch > 0
    {
      if sid == "" || (expected != sid && sessionID != expected && sessionID != sid) {
        EnsureAuthorityEpoch();
        return authorityEpoch, false;
      }
      var e := epoch;
      if e == 0 {
        e := 1;
      }
      changed := sessionID != sid;
      var authorityChanged := authorityEpoch != 0 && authorityEpoch != e;
      sessionID := sid;
      if changed || replaceHistory || authorityChanged {
        ClearHistory();
      }
      authorityEpoch := e;
      EnsureAuthorityEpoch();
      return authorityEpoch, changed || authorityChanged;
    }

    /** Taken only by a room without session and history. */
    method HydrateLocked(state: Persisted) returns (hydrated: bool, count: nat)
      modifies this`sessionID, this`authorityEpoch, this`meta, this`history, this`restored
      ensures View() == Hydrate(old(View()), state)
      ensures hydrated ==> count == |history|
    {
      if sessionID != "" || |history| != 0 {
        return false, 0;
      }
      if state.sessionID == "" && |state.history| == 0 {
        return false, 0;
      }
      sessionID, authorityEpoch, meta := state.sessionID, state.epoch, state.meta;
      history, restored := state.history, true;
      return true, |history|;
    }

    /** `a`, `b` and `c` are concurrent restores between its lock sections. */
    method HandleServerBroadcast(p: PeerId, msg: Message, a: Persisted, b: Persisted, c: Persisted)
      requires Running(View(), p, Server)
      modifies this`sessionID, this`authorityEpoch, this`meta, this`history, this`restored, this`peers, this`tasks
      ensures View() == BroadcastDuring(old(View()), p, msg, a, b, c)
    {
      if server != Some(p) {
        return;
      }
      var stamped := StampEvent(msg, a, b);
      var hydrated, count := HydrateLocked(c);
      Record(p, Json(stamped));
    }

    /** Binds the event's session, or gives it the room's if it names none. */
    method StampEvent(msg: Message, a: Persisted, b: Persisted) returns (stamped: Message)
      modifies this`sessionID, this`authorityEpoch, this`meta, this`history, this`restored
      ensures var bound := BindFrom(Hydrated(old(RoomView()), a), old(sessionID), msg.sessionID, msg.epoch, false);
              var read := Hydrated(bound, b);
              var r := if msg.sessionID == "" then read.(epoch := AtLeastOne(read.epoch)) else read;
              RoomView() == r && stamped == Stamp(msg, if msg.sessionID == "" then r else bound)
    {
      var epoch, changed := BindRoomSession(msg.sessionID, msg.epoch, false, a);
      var hydrated, count := HydrateLocked(b);
      var sid := msg.sessionID;
      if sid == "" {
        sid := sessionID;
        EnsureAuthorityEpoch();
        epoch := authorityEpoch;
      }
      stamped := msg.(sessionID := sid, generation := 0, epoch := epoch);
    }

    method Record(p: PeerId, wire: Raw)
      modifies this`history, this`peers, this`tasks
      ensures View() == Recorded(old(View()), p, wire)
    {
      var isNew := AppendEvent(EventOf(wire, Encrypted));
      if !isNew {
        return;
      }
      var targets := clients;
      if wire.msg.eventID != "" {
        targets := set q | q in clients && q in peers && peers[q].ready;
      }
      FanOut(targets, wire);
      if wire.msg.sessionID != "" && wire.msg.eventID != "" {
        tasks := tasks + [PersistEvent(p, wire.msg, wire, 0)];
      }
    }

    method HandleClientEncrypted(p: PeerId, raw: Raw)
      requires Running(View(), p, Client)
      modifies this`history, this`peers, this`tasks
      ensures View() == ClientSend(old(View()), p, raw)
    {
      var isNew := AppendEvent(EventOf(raw, ClientEncrypted));
      if server.Some? {
        SendRaw(server.value, raw);
      }
      if !isNew {
        return;
      }
      if raw.msg.sessionID != "" {
        tasks := tasks + [PersistEvent(p, raw.msg, raw, 0)];
      }
    }

    /** The session is named by the message or else by its data; `a` and `b` are concurrent restores. */
    method OnActiveSession(
      p: PeerId, msg: Message, dataSession: string, data: Meta, replace: bool, a: Persisted, b: Persisted)
      requires Running(View(), p, Server)
      modifies this`meta, this`sessionID, this`authorityEpoch, this`history, this`restored, this`peers, this`tasks
      ensures View() == ActivateDuring(old(View()), p, Named(msg, dataSession), data, replace, a, b)
    {
      var sid := msg.sessionID;
      if sid == "" {
        sid := dataSession;
      }
      if sid == "" || server != Some(p) {
        return;
      }
      MergeMeta(data);
      var hydrated, count := HydrateLocked(a);
      var epoch, changed := BindRoomSession(sid, msg.epoch, replace, b);
      Announce(msg.(sessionID := sid), epoch, data);
    }

    method Announce(msg: Message, epoch: nat, data: Meta)
      requires epoch == authorityEpoch
      modifies this`peers, this`tasks
      ensures View() == Announced(old(View()), msg, data)
    {
      FanOut(clients, Json(msg.(generation := 0, epoch := epoch)));
      tasks := tasks + [PersistSession(msg.sessionID, epoch, data)];
    }

    method MergeMeta(data: Meta)
      modifies this`meta
      ensures meta == Overlay(old(meta), data)
    {
      if data.workspace != "" { meta := meta.(workspace := data.workspace); }
      if data.provider != "" { meta := meta.(provider := data.provider); }
      if data.model != "" { meta := meta.(model := data.model); }
    }

    method OnResume(p: PeerId, msg: Message, loadedCursor: string)
      requires Running(View(), p, Client)
      modifies this`clientsByID, this`authorityEpoch, this`peers
      ensures View() == Resume(old(View()), p, msg, loadedCursor)
    {
      if msg.clientID == "" {
        SendRaw(p, Json(Notice(ErrorNotice, "", 0)));
        return;
      }
      var cursor := ChooseCursor(peers[p], msg, loadedCursor);
      var superseded := ClaimID(p, msg.clientID);
      StartWaiting(p, msg.clientID, cursor);
      CloseSuperseded(superseded);
    }

    method ClaimID(p: PeerId, clientID: string) returns (superseded: Option<PeerId>)
      modifies this`clientsByID, this`authorityEpoch
      ensures superseded == Superseded(old(RoomView()), p, clientID)
      ensures RoomView() ==
              old(RoomView()).(byID := old(clientsByID)[clientID := p], epoch := AtLeastOne(old(authorityEpoch)))
    {
      superseded := None;
      if clientID in clientsByID && clientsByID[clientID] != p {
        superseded := Some(clientsByID[clientID]);
      }
      clientsByID := clientsByID[clientID := p];
      EnsureAuthorityEpoch();
    }

    /** The connection takes the id and the cursor, is told the session and waits for its key. */
    method StartWaiting(p: PeerId, clientID: string, cursor: string)
      requires p in peers
      modifies this`peers
      ensures var q := old(peers[p]).(clientID := clientID, cursor := cursor, ready := false, waiting := true);
              peers == old(peers)[p := Enqueue(q, Json(SessionNotice(old(RoomView()), clientID)))]
    {
      var peer := peers[p].(clientID := clientID, cursor := cursor, ready := false, waiting := true);
      var notice := Json(SessionNotice(RoomView(), clientID));
      SendToUpdated(peers, p, peer, notice);
      peers := peers[p := peer];
      SendRaw(p, notice);
    }

    method ChooseCursor(peer: Peer, msg: Message, loadedCursor: string) returns (cursor: string)
      ensures cursor == ResumeCursor(peer, RoomView(), msg, loadedCursor)
    {
      cursor := peer.cursor;
      if msg.typ == ResumeFrom {
        cursor := msg.lastEventID;
      } else if cursor == "" {
        cursor := loadedCursor;
      }
      if msg.sessionID != "" && sessionID != "" && msg.sessionID != sessionID {
        cursor := "";
      }
    }

    method CloseSuperseded(superseded: Option<PeerId>)
      modifies this`peers
      ensures peers == CloseOld(old(peers), superseded)
    {
      if superseded.Some? && superseded.value in peers {
        peers := peers[superseded.value := peers[superseded.value].(closed := true)];
      }
    }

    method NotifyServerClientConnected()
      modifies this`authorityEpoch, this`peers
      ensures View() == NotifyServer(old(View()))
    {
      if server.None? {
        return;
      }
      EnsureAuthorityEpoch();
      var tail := "";
      if |history| > 0 {
        tail := history[|history| - 1].eventID;
      }
      var note := Notice(Connected, sessionID, authorityEpoch).(count := |history|, lastEventID := tail);
      SendRaw(server.value, Json(note));
    }

    /** The replay stops early rather than fill the queue; the writer may drain between iterations. */
    method ReplayBacklog(p: PeerId, backlog: seq<RoomEvent>, drains: seq<nat>)
      requires p in peers
      modifies this`peers
      ensures peers == old(peers)[p := Replay(old(peers[p]), backlog, drains)]
    {
      ghost var start := peers;
      var i := 0;
      while i < |backlog|
        invariant 0 <= i <= |backlog|
        invariant p in peers && peers == start[p := peers[p]]
        invariant Replay(start[p], backlog, drains) ==
                  Replay(peers[p], backlog[i..], if i <= |drains| then drains[i..] else [])
      {
        peers := peers[p := Drained(peers[p], if i < |drains| then drains[i] else 0)];
        if |peers[p].queue| >= SEND_CAPACITY - REPLAY_HEADROOM {
          return;
        }
        SendRaw(p, backlog[i].raw);
        assert backlog[i..][1..] == backlog[i + 1..];
        assert i < |drains| ==> drains[i..][1..] == drains[i + 1..];
        i := i + 1;
      }
    }

    method Acknowledge(p: PeerId)
      requires p in peers && authorityEpoch > 0
      modifies this`peers
      ensures p in peers && peers == old(peers)[p := Acknowledged(old(View()), p)]
    {
      var peer := peers[p].(ready := true, waiting := false);
      SendToUpdated(peers, p, peer, Json(ResumeNotice(RoomView(), peer.clientID, peer.cursor)));
      peers := peers[p := peer];
      SendRaw(p, Json(ResumeNotice(RoomView(), peer.clientID, peer.cursor)));
    }

    method FinishResume(p: PeerId, clientID: string, drains: seq<nat>)
      requires Running(View(), p, Client)
      modifies this`authorityEpoch, this`peers
      ensures View() == KeyReady(old(View()), p, clientID, drains)
    {
      var peer := peers[p];
      if !peer.waiting || (clientID != "" && peer.clientID != "" && clientID != peer.clientID) {
        return;
      }
      QueueBacklog(p, drains);
      NotifyServerClientConnected();
    }

    method QueueBacklog(p: PeerId, drains: seq<nat>)
      requires p in peers
      modifies this`authorityEpoch, this`peers
      ensures authorityEpoch == AtLeastOne(old(authorityEpoch))
      ensures var q := Replay(Acknowledged(old(View()), p), After(history, old(peers[p].cursor)), drains);
              peers == old(peers)[p := q]
    {
      var backlog := EventsAfter(peers[p].cursor);
      ghost var m := View();
      EnsureAuthorityEpoch();
      Acknowledge(p);
      assert peers == m.peers[p := Acknowledged(m, p)];
      ReplayBacklog(p, backlog, drains);
    }

    method OnAck(p: PeerId, eventID: string)
      requires Running(View(), p, Client)
      modifies this`peers, this`tasks
      ensures View() == Ack(old(View()), p, eventID)
    {
      if eventID == "" {
        return;
      }
      var peer := peers[p];
      if peer.clientID !in clientsByID || clientsByID[peer.clientID] != p {
        return;
      }
      if peer.cursor != "" && !Less(peer.cursor, eventID) {
        return;
      }
      peers := peers[p := peer.(cursor := eventID)];
      tasks := tasks + [SaveCursor(peer.clientID, sessionID, eventID)];
    }

    method DetachFromRoom(p: PeerId, roomDestroyed: bool)
      requires p in peers && peers[p].done
      modifies this`server, this`serverReady, this`retained, this`peers
      modifies this`clients, this`clientsByID, this`live, this`tasks
      ensures View() == Detach(old(View()), p, roomDestroyed)
    {
      if peers[p].role == Server {
        DetachServer(p, roomDestroyed);
      } else {
        DetachClient(p);
      }
    }

    method DetachServer(p: PeerId, roomDestroyed: bool)
      requires p in peers && peers[p].done && peers[p].role == Server
      modifies this`server, this`serverReady, this`retained, this`peers
      ensures View() == ServerDetached(old(View()), p, roomDestroyed)
    {
      if server != Some(p) {
        return;
      }
      server, serverReady := None, false;
      if !roomDestroyed && live {
        retained := true;
        FanOut(clients, Json(Notice(ServerOffline, sessionID, 0)));
      }
    }

    method DetachClient(p: PeerId)
      requires p in peers && peers[p].done && peers[p].role == Client
      modifies this`clients, this`clientsByID, this`live, this`tasks
      ensures View() == ClientDetached(old(View()), p)
    {
      clients := clients - {p};
      var id := peers[p].clientID;
      if id != "" && id in clientsByID && clientsByID[id] == p {
        clientsByID := clientsByID - {id};
      }
      RemoveRoomIfEmpty();
    }

    method RemoveRoomIfEmpty()
      modifies this`live, this`tasks
      ensures View() == RemoveIfEmpty(old(View()))
    {
      if live && server.None? && clients == {} && !retained {
        live := false;
        tasks := tasks + [DestroyRows];
      }
    }

    /** The current host asks the hub to destroy whatever room is under its token; while the hub holds
        this room, that is this room. */
    method OnStopSharing(p: PeerId) returns (destroysToken: bool)
      requires Running(View(), p, Server)
      modifies this`live, this`retained, this`server, this`peers, this`tasks
      ensures View() == StopSharing(old(View()), p)
      ensures destroysToken == IsServer(old(View()), p)
    {
      destroysToken := server == Some(p);
      if destroysToken && live {
        Destroy(p);
      }
    }

    method Destroy(p: PeerId)
      requires IsServer(View(), p) && live
      modifies this`live, this`retained, this`server, this`peers, this`tasks
      ensures View() == StopSharing(old(View()), p)
    {
      TellAll(p, Json(Notice(SharingStopped, "", 0)));
      Drop();
    }

    method Drop()
      modifies this`live, this`retained, this`server, this`tasks
      ensures var m := old(View());
              View() == m.(room := m.room.(live := false, retained := false, server := None),
                           tasks := m.tasks + [DestroyRows])
    {
      live, retained, server := false, false, None;
      tasks := tasks + [DestroyRows];
    }

    method TellAll(p: PeerId, notice: Raw)
      modifies this`peers
      ensures peers == SendTo(SendAll(old(peers), clients, notice), p, notice)
    {
      FanOut(clients, notice);
      SendRaw(p, notice);
    }

    /** Bounded retries, then the originating connection is closed so that the stream fails visibly.
        `outcomes[k]` is whether the store accepts attempt k + 1; an event without a session or an id
        is always accepted, and not stored. */
    method PersistEventDurable(
      store: RelayStore, p: PeerId, key: Key, msg: Message, raw: Raw, now: int, outcomes: seq<bool>)
      returns (attempts: nat, persisted: bool)
      requires |outcomes| == MAX_PERSIST_ATTEMPTS && p in peers
      modifies store, this`peers, this`abandoned
      ensures 1 <= attempts <= MAX_PERSIST_ATTEMPTS
      ensures forall k :: 0 <= k < attempts - 1 ==> !outcomes[k]
      ensures persisted <==> outcomes[attempts - 1] || msg.sessionID == "" || msg.eventID == ""
      ensures persisted ==>
                store.View() == EventPersisted(old(store.View()), key, msg, raw, now)
                && peers == old(peers) && abandoned == old(abandoned)
      ensures !persisted ==>
                attempts == MAX_PERSIST_ATTEMPTS && store.View() == old(store.View())
                && peers == old(peers)[p := old(peers[p]).(closed := true)]
                && abandoned == old(abandoned) + [PersistEvent(p, msg, raw, MAX_PERSIST_ATTEMPTS)]
    {
      attempts, persisted := 0, false;
      while attempts < MAX_PERSIST_ATTEMPTS
        invariant 0 <= attempts <= MAX_PERSIST_ATTEMPTS
        invariant forall k :: 0 <= k < attempts ==> !outcomes[k]
        invariant !persisted && (attempts > 0 ==> msg.sessionID != "" && msg.eventID != "")
        invariant store.View() == old(store.View()) && peers == old(peers) && abandoned == old(abandoned)
      {
        attempts := attempts + 1;
        persisted := store.PersistEvent(key, msg, raw, now, outcomes[attempts - 1]);
        if persisted {
          return;
        }
      }
      abandoned := abandoned + [PersistEvent(p, msg, raw, attempts)];
      peers := peers[p := peers[p].(closed := true)];
    }
  }
}
