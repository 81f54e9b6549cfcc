/** Who is told what: the notices each handler queues, and when clients are let in. */
module RelayNotices {
  import opened Messages
  import opened History
  import opened Store
  import opened Relay
  import opened RelayMachine
  import opened RelayPeers
  import opened RelaySessions

  /** The message reached the connection's queue; a full queue closed the connection instead, and a reader
      that has returned gets nothing. */
  predicate Told(a: Peer, b: Peer, raw: Raw) {
    && (!a.done && |a.queue| < 2048 ==> b.queue == a.queue + [raw] && b.closed == a.closed)
    && (!a.done && |a.queue| >= 2048 ==> b.queue == a.queue && b.closed)
    && (a.done ==> b == a)
    && b.cursor == a.cursor && b.ready == a.ready && b.clientID == a.clientID && b.written == a.written
  }

  /** All of these connections were told, and no other was. */
  predicate AllTold(m: Memory, m': Memory, who: set<PeerId>, raw: Raw) {
    && (forall q :: q in m.peers ==> q in m'.peers)
    && (forall q :: q in m.peers && q in who ==> Told(m.peers[q], m'.peers[q], raw))
    && (forall q :: q in m.peers && q !in who ==> m'.peers[q] == m.peers[q])
  }

  predicate OnlyTold(m: Memory, m': Memory, q: PeerId, raw: Raw) { AllTold(m, m', {q}, raw) }

  // ---- Events ----

  /** A transient event reaches every client, resumed or not, and leaves no other trace. */
  lemma TransientReachesAll(m: Memory, p: PeerId, msg: Message)
    requires IsServer(m, p) && msg.eventID == ""
    ensures var r := Bind(m.room, msg.sessionID, msg.epoch, false); var m' := Broadcast(m, p, msg);
            AllTold(m, m', m.room.clients, Json(Stamp(msg, r))) && m'.tasks == m.tasks && m'.room == r
  {
    var r := Bind(m.room, msg.sessionID, msg.epoch, false);
    assert r.clients == m.room.clients;
    TransientTold(m.(room := r), p, Json(Stamp(msg, r)));
  }

  lemma TransientTold(m: Memory, p: PeerId, wire: Raw)
    requires wire.msg.eventID == ""
    ensures var m' := Recorded(m, p, wire);
            AllTold(m, m', m.room.clients, wire) && m'.tasks == m.tasks && m'.room == m.room
  {
  }

  /** A new event with an id reaches exactly the clients that have finished resuming. */
  lemma EventReachesReady(m: Memory, p: PeerId, msg: Message)
    requires IsServer(m, p) && msg.eventID != ""
    requires IsNew(Bind(m.room, msg.sessionID, msg.epoch, false).history, msg.eventID)
    ensures var r := Bind(m.room, msg.sessionID, msg.epoch, false);
            var ready := set q | q in m.room.clients && q in m.peers && m.peers[q].ready;
            AllTold(m, Broadcast(m, p, msg), ready, Json(Stamp(msg, r)))
  {
    var r := Bind(m.room, msg.sessionID, msg.epoch, false);
    assert r.clients == m.room.clients;
    ReadyTold(m.(room := r), p, Json(Stamp(msg, r)));
  }

  lemma ReadyTold(m: Memory, p: PeerId, wire: Raw)
    requires wire.msg.eventID != "" && IsNew(m.room.history, wire.msg.eventID)
    ensures var ready := set q | q in m.room.clients && q in m.peers && m.peers[q].ready;
            AllTold(m, Recorded(m, p, wire), ready, wire)
  {
  }

  /** A recent duplicate replaces its entry and reaches no one. */
  lemma DuplicateIsQuiet(m: Memory, p: PeerId, msg: Message)
    requires IsServer(m, p) && !Rebinds(m.room, msg.sessionID, msg.epoch, false) && !IsNew(m.room.history, msg.eventID)
    ensures var m' := Broadcast(m, p, msg);
            m'.peers == m.peers && m'.tasks == m.tasks && Ids(m'.room.history) == Ids(m.room.history)
  {
    var r := Bind(m.room, msg.sessionID, msg.epoch, false);
    BindReplacesIff(m.room, msg.sessionID, msg.epoch, false);
    AppendEffect(r.history, EventOf(Json(Stamp(msg, r)), Encrypted));
  }

  /** A client's event always reaches the host, duplicate or not, and no one else; it is handed to a persist
      task exactly if it is new and names its session. */
  lemma ClientEventReachesHost(m: Memory, p: PeerId, raw: Raw)
    requires Running(m, p, Client) && m.room.server.Some?
    ensures var m' := ClientSend(m, p, raw);
            && OnlyTold(m, m', m.room.server.value, raw)
            && m'.tasks == m.tasks + (if IsNew(m.room.history, raw.msg.eventID) && raw.msg.sessionID != ""
                                      then [PersistEvent(p, raw.msg, raw, 0)] else [])
  {
  }

  // ---- Sessions ----

  predicate Merged(old_: string, new_: string, result: string) {
    (new_ != "" ==> result == new_) && (new_ == "" ==> result == old_)
  }

  /** Every client and no one else is told of an active_session, with the epoch the room is in; each
      descriptive field given replaces the room's, and the session is handed to a persist task. */
  lemma ActivationTells(m: Memory, p: PeerId, msg: Message, meta: Meta, replace: bool)
    requires IsServer(m, p) && msg.sessionID != ""
    ensures var m' := Activate(m, p, msg, meta, replace); var epoch := if msg.epoch > 0 then msg.epoch else 1;
            && AllTold(m, m', m.room.clients, Json(msg.(generation := 0, epoch := epoch)))
            && m'.room.sessionID == msg.sessionID && m'.room.epoch == epoch
            && Merged(m.room.meta.workspace, meta.workspace, m'.room.meta.workspace)
            && Merged(m.room.meta.provider, meta.provider, m'.room.meta.provider)
            && Merged(m.room.meta.model, meta.model, m'.room.meta.model)
            && m'.tasks == m.tasks + [PersistSession(msg.sessionID, epoch, meta)]
  {
    var r := m.room.(meta := Overlay(m.room.meta, meta));
    BindReplacesIff(r, msg.sessionID, msg.epoch, replace);
    var b := Bind(r, msg.sessionID, msg.epoch, replace);
    assert b.clients == m.room.clients && b.meta == r.meta;
    AnnouncedTold(m.(room := b), msg, meta);
  }

  lemma AnnouncedTold(m: Memory, msg: Message, meta: Meta)
    ensures AllTold(m, Announced(m, msg, meta), m.room.clients, Json(msg.(generation := 0, epoch := m.room.epoch)))
    ensures Announced(m, msg, meta).room == m.room
    ensures Announced(m, msg, meta).tasks == m.tasks + [PersistSession(msg.sessionID, m.room.epoch, meta)]
  {
  }

  /** The room is bound to the session in the message, or, if it names none, to the one in its data; with neither
      the message does nothing. */
  lemma MessageSessionFirst(s: State, p: PeerId, msg: Message, dataSession: string, meta: Meta, replace: bool)
    requires IsServer(s.mem, p) && msg.typ == ActiveSession
    ensures var t := Apply(s, DoActivate(p, msg, dataSession, meta, replace));
            && (msg.sessionID != "" ==> t.mem.room.sessionID == msg.sessionID)
            && (msg.sessionID == "" && dataSession != "" ==> t.mem.room.sessionID == dataSession)
            && (msg.sessionID == "" && dataSession == "" ==> t == s)
  {
    var named := Named(msg, dataSession);
    if named.sessionID != "" { ActivationTells(s.mem, p, named, meta, replace); }
  }

  /** A resuming client is told the room's session, epoch and, if it has any, descriptive fields. */
  lemma ResumeTells(m: Memory, p: PeerId, msg: Message, loaded: string)
    requires Running(m, p, Client) && msg.clientID != "" && |m.peers[p].queue| < SEND_CAPACITY
    ensures var m' := Resume(m, p, msg, loaded); var q := m'.peers[p].queue;
            && |q| == |m.peers[p].queue| + 1 && q[..|q| - 1] == m.peers[p].queue
            && var note := q[|q| - 1].msg;
               && note.typ == ActiveSession && note.sessionID == m.room.sessionID && note.clientID == msg.clientID
               && note.epoch == (if m.room.epoch > 0 then m.room.epoch else 1)
               && (note.body.SessionData? <==> m.room.meta != NO_META)
               && (note.body.SessionData? ==> note.body.meta == m.room.meta)
  {
  }

  /** A message without a client id is answered with an error and changes nothing else. */
  lemma ResumeWithoutID(m: Memory, p: PeerId, msg: Message, loaded: string)
    requires Running(m, p, Client) && msg.clientID == ""
    ensures var m' := Resume(m, p, msg, loaded);
            && OnlyTold(m, m', p, Json(Notice(ErrorNotice, "", 0)))
            && m'.room == m.room && m'.tasks == m.tasks && m'.admitted == m.admitted
  {
  }

  /** The acknowledgement names session and epoch, counts the backlog, and calls the replay full exactly if
      the client had no cursor. */
  lemma AcknowledgementTells(m: Memory, p: PeerId)
    requires Running(m, p, Client) && |m.peers[p].queue| < SEND_CAPACITY
    ensures var q := Acknowledged(m, p); var n := |m.peers[p].queue|;
            && q.ready && !q.waiting && |q.queue| == n + 1 && q.queue[..n] == m.peers[p].queue
            && var ack := q.queue[n].msg;
               && ack.typ == ResumeAck && ack.sessionID == m.room.sessionID && ack.clientID == m.peers[p].clientID
               && ack.epoch == (if m.room.epoch > 0 then m.room.epoch else 1) && ack.body.ResumeData?
               && (ack.body.full <==> m.peers[p].cursor == "")
               && ack.body.count == |After(m.room.history, m.peers[p].cursor)|
  {
  }

  // ---- Hosts ----

  /** The host is told how long the history is and where it ends. */
  lemma NotifyTells(m: Memory)
    ensures m.room.server.None? ==> NotifyServer(m) == m
    ensures m.room.server.Some? ==>
              var h := m.room.history; var epoch := if m.room.epoch > 0 then m.room.epoch else 1;
              var note := Notice(Connected, m.room.sessionID, epoch).(
                count := |h|, lastEventID := if |h| > 0 then h[|h| - 1].eventID else "");
              OnlyTold(m, NotifyServer(m), m.room.server.value, Json(note))
    ensures NotifyServer(m).room.history == m.room.history && NotifyServer(m).tasks == m.tasks
  {
  }

  /** A host that takes over ends the old one's share and is not ready yet; an expired room stays without. */
  lemma TakeoverTells(m: Memory, p: PeerId, id: string)
    requires p !in m.peers
    ensures var m' := JoinServer(m, p, id);
            && (m.room.server.Some? ==> OnlyTold(m, m', m.room.server.value, Json(Notice(SharingStopped, "", 0))))
            && (m.room.server.None? ==> OnlyTold(m, m', p, Json(Notice(SharingStopped, "", 0))))
            && (m.room.server.Some? || !m.room.expired ==> !m'.room.serverReady)
            && (m'.room.server == if m.room.expired then None else Some(p))
            && (p in m'.peers <==> !m.room.expired) && (!m.room.expired ==> !m'.room.retained)
            && m'.room.history == m.room.history && m'.room.clients == m.room.clients && m'.tasks == m.tasks
  {
  }

  /** A host that goes away leaves the room to wait for it, and tells the clients, unless the room was
      destroyed or is no longer in the hub. */
  lemma DepartureTells(m: Memory, p: PeerId, destroyed: bool)
    requires p in m.peers && m.peers[p].done && m.peers[p].role == Server && m.room.server == Some(p)
    ensures var m' := Detach(m, p, destroyed);
            && m'.room.server.None? && !m'.room.serverReady && m'.room.history == m.room.history
            && m'.room.live == m.room.live && m'.tasks == m.tasks
            && (!destroyed && m.room.live ==>
                AllTold(m, m', m.room.clients, Json(Notice(ServerOffline, m.room.sessionID, 0))) && m'.room.retained)
            && (destroyed || !m.room.live ==> m'.peers == m.peers && m'.room.retained == m.room.retained)
  {
  }

  /** The last client to leave a room without host and timer takes the room with it; no other does. */
  lemma LastClientRemoves(m: Memory, p: PeerId, destroyed: bool)
    requires p in m.peers && m.peers[p].done && m.peers[p].role == Client && m.room.live
    ensures var m' := Detach(m, p, destroyed); var id := m.peers[p].clientID;
            && m'.room.clients == m.room.clients - {p} && m'.peers == m.peers && m'.room.history == m.room.history
            && (!m'.room.live <==> m.room.server.None? && m.room.clients <= {p} && !m.room.retained)
            && m'.tasks == m.tasks + (if m'.room.live then [] else [DestroyRows])
            && m'.room.byID == if id != "" && HoldsID(m, p) then m.room.byID - {id} else m.room.byID
  {
  }

  /** The host's stop drops the room, tells every client and the host, and hands over the rows' deletion. */
  lemma StopTells(m: Memory, p: PeerId)
    requires IsServer(m, p) && m.room.live && p !in m.room.clients
    ensures var m' := StopSharing(m, p);
            && AllTold(m, m', m.room.clients + {p}, Json(Notice(SharingStopped, "", 0)))
            && !m'.room.live && m'.room.server.None? && !m'.room.retained && m'.tasks == m.tasks + [DestroyRows]
  {
  }

  /** Expiry takes only a room without a host, marks it, and tells every client. */
  lemma ExpiryTells(m: Memory)
    ensures !m.room.live || m.room.server.Some? ==> Expire(m) == m
    ensures m.room.live && m.room.server.None? ==>
              var m' := Expire(m);
              && AllTold(m, m', m.room.clients, Json(Notice(SharingStopped, "", 0)))
              && !m'.room.live && m'.room.expired && !m'.room.retained && m'.tasks == m.tasks + [DestroyRows]
  {
  }

  /** A key_ready under another id than the connection's, or from one that is not waiting, does nothing. */
  lemma StrayKeyReady(m: Memory, p: PeerId, id: string, drains: seq<nat>)
    requires Running(m, p, Client)
    requires !m.peers[p].waiting || (id != "" && m.peers[p].clientID != "" && id != m.peers[p].clientID)
    ensures KeyReady(m, p, id, drains) == m
  {
  }

  /** Any other resumes the client, which then waits no more, and tells the host how far the history reaches. */
  lemma KeyReadyTells(m: Memory, p: PeerId, id: string, drains: seq<nat>)
    requires Running(m, p, Client) && m.peers[p].waiting
    requires id == "" || m.peers[p].clientID == "" || id == m.peers[p].clientID
    requires m.room.server.Some? && m.room.server.value in m.peers && m.room.server.value != p
    ensures var m' := KeyReady(m, p, id, drains); var srv := m.room.server.value;
            var epoch := if m.room.epoch > 0 then m.room.epoch else 1; var h := m.room.history;
            var note := Notice(Connected, m.room.sessionID, epoch).(
              count := |h|, lastEventID := if |h| > 0 then h[|h| - 1].eventID else "");
            && p in m'.peers && m'.peers[p].ready && !m'.peers[p].waiting && m'.peers[p].cursor == m.peers[p].cursor
            && srv in m'.peers && Told(m.peers[srv], m'.peers[srv], Json(note))
            && m'.room.history == m.room.history && m'.tasks == m.tasks
  {
    var r := m.room.(epoch := AtLeastOne(m.room.epoch));
    var q := Replay(Acknowledged(m, p), After(r.history, m.peers[p].cursor), drains);
    ReplayAges(Acknowledged(m, p), After(r.history, m.peers[p].cursor), drains);
    NotifyTells(m.(room := r, peers := m.peers[p := q]));
  }

  /** A crash ends every connection and forgets room, admissions and pending tasks; what was sent stays sent
      and what was stored stays stored. */
  lemma CrashEndsEverything(s: State)
    ensures var t := Apply(s, DoCrash);
            && t.store == s.store && t.mem.tasks == [] && t.mem.admitted == {} && t.mem.abandoned == s.mem.abandoned
            && t.mem.room.history == [] && t.mem.room.sessionID == "" && t.mem.room.server.None?
            && t.mem.room.clients == {} && t.mem.room.byID == map[]
            && (forall q :: q in t.mem.peers <==> q in s.mem.peers)
            && (forall q :: q in s.mem.peers ==> t.mem.peers[q] == s.mem.peers[q].(done := true))
  {
  }

  // ---- Letting clients in ----

  /** The connection, while it was the room's host, said during the run that it is ready. */
  predicate SaidReady(s: State, steps: seq<Step>, p: PeerId) {
    && steps != []
    && var before, step := steps[..|steps| - 1], steps[|steps| - 1];
       SaidReady(s, before, p) || (step == DoServerReady(p) && IsServer(Run(s, before).mem, p))
  }

  predicate ReadyHost(m: Memory, p: PeerId) { m.room.server == Some(p) && m.room.serverReady }

  lemma ReadyAfterClient(s: State, step: Step, p: PeerId)
    requires ByClient(step) && ReadyHost(Apply(s, step).mem, p)
    ensures ReadyHost(s.mem, p)
  {
    match step
    case DoKeyReady(q, id, drains) => KeyReadyHost(s.mem, q, id, drains);
    case _ =>
  }

  lemma KeyReadyHost(m: Memory, q: PeerId, id: string, drains: seq<nat>)
    ensures KeyReady(m, q, id, drains).room.server == m.room.server
    ensures KeyReady(m, q, id, drains).room.serverReady == m.room.serverReady
  {
  }

  lemma EventHost(m: Memory, p: PeerId, msg: Message)
    ensures Broadcast(m, p, msg).room.server == m.room.server
    ensures Broadcast(m, p, msg).room.serverReady == m.room.serverReady
  {
    var r := Bind(m.room, msg.sessionID, msg.epoch, false);
    BindHost(m.room, msg.sessionID, msg.epoch);
    RecordedHost(m.(room := r), p, Json(Stamp(msg, r)));
  }

  lemma BindHost(r: Room, sid: string, epoch: nat)
    ensures Bind(r, sid, epoch, false).server == r.server && Bind(r, sid, epoch, false).serverReady == r.serverReady
  {
  }

  lemma RecordedHost(m: Memory, p: PeerId, wire: Raw)
    ensures Recorded(m, p, wire).room == m.room.(history := Recorded(m, p, wire).room.history)
  {
  }

  lemma ActivationHost(m: Memory, p: PeerId, msg: Message, meta: Meta, replace: bool)
    ensures Activate(m, p, msg, meta, replace).room.server == m.room.server
    ensures Activate(m, p, msg, meta, replace).room.serverReady == m.room.serverReady
  {
  }

  lemma ReadyAfter(s: State, step: Step, p: PeerId)
    requires ReadyHost(Apply(s, step).mem, p)
    ensures ReadyHost(s.mem, p) || (step == DoServerReady(p) && IsServer(s.mem, p))
  {
    if ByClient(step) {
      ReadyAfterClient(s, step, p);
    } else {
      match step
      case DoBroadcast(q, msg) => EventHost(s.mem, q, msg);
      case DoActivate(q, msg, sid, meta, replace) => ActivationHost(s.mem, q, Named(msg, sid), meta, replace);
      case DoDetach(q, d) => DetachHost(s.mem, q, d, p);
      case _ =>
    }
  }

  lemma DetachHost(m: Memory, q: PeerId, d: bool, p: PeerId)
    requires ReadyHost(Detach(m, q, d), p)
    ensures ReadyHost(m, p)
  {
  }

  lemma {:induction false} ReadyHostSaidSo(key: Key, store: Tables, steps: seq<Step>, p: PeerId)
    requires ReadyHost(Run(Init(key, store), steps).mem, p)
    ensures SaidReady(Init(key, store), steps, p)
  {
    if steps != [] {
      var before, step := steps[..|steps| - 1], steps[|steps| - 1];
      ReadyAfter(Run(Init(key, store), before), step, p);
      if ReadyHost(Run(Init(key, store), before).mem, p) { ReadyHostSaidSo(key, store, before, p); }
    }
  }

  /** In every run, a client is let in only while the hub holds the room and the very host attached to it has
      said that it is ready; what an earlier host said does not count. */
  lemma AdmittedUnderReadyHost(key: Key, store: Tables, steps: seq<Step>, c: PeerId)
    requires var s := Run(Init(key, store), steps); c !in s.mem.admitted && c in Apply(s, DoAdmit(c)).mem.admitted
    ensures var m := Run(Init(key, store), steps).mem;
            m.room.live && m.room.server.Some? && SaidReady(Init(key, store), steps, m.room.server.value)
  {
    var m := Run(Init(key, store), steps).mem;
    ReadyHostSaidSo(key, store, steps, m.room.server.value);
  }

  /** And while such a host is attached to a room the hub holds, every newcomer is let in. */
  lemma ReadyHostAdmits(m: Memory, c: PeerId)
    requires c !in m.peers
    ensures c in Admit(m, c).admitted <==>
            c in m.admitted || (m.room.live && m.room.server.Some? && m.room.serverReady)
    ensures Admit(m, c) == m.(admitted := Admit(m, c).admitted)
  {
  }

  /** An admitted client becomes one of the room's, without cursor, not resumed, and the host is told. */
  lemma AdmittedJoins(m: Memory, c: PeerId, id: string)
    requires c !in m.peers && c in m.admitted
    ensures var m' := JoinClient(m, c, id);
            && m'.room.clients == m.room.clients + {c} && c !in m'.admitted && c in m'.peers
            && (m.room.server != Some(c) ==> m'.peers[c] == Peer(Client, id, false, false, "", [], [], false, false))
            && m'.room.history == m.room.history && m'.tasks == m.tasks
  {
  }

  /** The connection was let in: the hub held the room, and its host was attached and ready. */
  predicate LetIn(s: State, steps: seq<Step>, c: PeerId) {
    && steps != []
    && var before, step := steps[..|steps| - 1], steps[|steps| - 1];
       var r := Run(s, before).mem.room;
       LetIn(s, before, c) || (step == DoAdmit(c) && r.live && r.server.Some? && r.serverReady)
  }

  /** The connections that are clients, or about to be. */
  predicate IsClient(m: Memory, c: PeerId) {
    c in m.admitted || (c in m.peers && m.peers[c].role == Client)
  }

  lemma NewClientsAreAdmitted(s: State, step: Step, c: PeerId)
    requires IsClient(Apply(s, step).mem, c)
    ensures IsClient(s.mem, c) || (step == DoAdmit(c) && ReadyRoom(s.mem.room))
  {
    if ByClient(step) {
      ClientStepAdmits(s, step, c);
    } else if ByHost(step) {
      HostStepAdmits(s, step, c);
    } else if step.DoDetach? {
      DetachAdmits(s.mem, step.p, step.roomDestroyed, c);
    }
  }

  predicate ReadyRoom(r: Room) { r.live && r.server.Some? && r.serverReady }

  lemma ClientStepAdmits(s: State, step: Step, c: PeerId)
    requires ByClient(step) && IsClient(Apply(s, step).mem, c)
    ensures IsClient(s.mem, c) || (step == DoAdmit(c) && ReadyRoom(s.mem.room))
  {
    match step
    case DoKeyReady(p, id, drains) => KeyReadyAdmits(s.mem, p, id, drains, c);
    case _ =>
  }

  lemma KeyReadyAdmits(m: Memory, p: PeerId, id: string, drains: seq<nat>, c: PeerId)
    requires IsClient(KeyReady(m, p, id, drains), c)
    ensures IsClient(m, c)
  {
    if CanFinish(m, p, id) {
      ReplayAges(Acknowledged(m, p), After(m.room.history, m.peers[p].cursor), drains);
    }
  }

  lemma HostStepAdmits(s: State, step: Step, c: PeerId)
    requires ByHost(step) && IsClient(Apply(s, step).mem, c)
    ensures IsClient(s.mem, c)
  {
    match step
    case DoBroadcast(p, msg) => EventAdmits(s.mem, p, msg, c);
    case DoActivate(p, msg, sid, meta, replace) => ActivationAdmits(s.mem, p, Named(msg, sid), meta, replace, c);
    case _ =>
  }

  lemma EventAdmits(m: Memory, p: PeerId, msg: Message, c: PeerId)
    ensures IsClient(Broadcast(m, p, msg), c) <==> IsClient(m, c)
  {
  }

  lemma ActivationAdmits(m: Memory, p: PeerId, msg: Message, meta: Meta, replace: bool, c: PeerId)
    ensures IsClient(Activate(m, p, msg, meta, replace), c) <==> IsClient(m, c)
  {
  }

  lemma DetachAdmits(m: Memory, p: PeerId, d: bool, c: PeerId)
    requires IsClient(Detach(m, p, d), c)
    ensures IsClient(m, c)
  {
  }

  /** In every run every client was let in under a ready host. */
  lemma {:induction false} EveryClientWasLetIn(key: Key, store: Tables, steps: seq<Step>, c: PeerId)
    requires IsClient(Run(Init(key, store), steps).mem, c)
    ensures LetIn(Init(key, store), steps, c)
  {
    if steps != [] {
      var before, step := steps[..|steps| - 1], steps[|steps| - 1];
      NewClientsAreAdmitted(Run(Init(key, store), before), step, c);
      if IsClient(Run(Init(key, store), before).mem, c) { EveryClientWasLetIn(key, store, before, c); }
    }
  }
}
