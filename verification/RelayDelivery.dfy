/** What reaches a client connection, and where its cursor stands: exact accounts of every run. */
module RelayDelivery {
  import opened Messages
  import opened History
  import opened Lex
  import opened Store
  import opened StoreTheorems
  import opened Relay
  import opened RelayMachine
  import opened RelayPeers
  import opened RelayWellFormed
  import opened RelayResume

  // ---- Connections that get no event ----

  /** The same events were ever queued on both. */
  ghost predicate SameEvents(a: Peer, b: Peer) {
    forall raw :: IsEvent(raw) ==> (raw in Stream(a) <==> raw in Stream(b))
  }

  ghost predicate Same(a: Peer, b: Peer) {
    b.clientID == a.clientID && b.cursor == a.cursor && b.ready == a.ready && SameEvents(a, b)
  }

  ghost predicate NoEvents(a: Peer) {
    forall raw :: IsEvent(raw) ==> raw !in Stream(a)
  }

  /** The handler queues no event on the connection and leaves its id, cursor and readiness alone. */
  ghost predicate Silent(m: Memory, m': Memory, q: PeerId) {
    q in m'.peers ==> if q in m.peers then Same(m.peers[q], m'.peers[q])
                      else m'.peers[q].cursor == "" && !m'.peers[q].ready && NoEvents(m'.peers[q])
  }

  lemma EnqueueSame(q: Peer, raw: Raw)
    requires !IsEvent(raw)
    ensures Same(q, Enqueue(q, raw))
  {
    assert q.written + (q.queue + [raw]) == Stream(q) + [raw];
  }

  lemma SendToSame(m: Memory, to: PeerId, raw: Raw, q: PeerId)
    requires q in m.peers && (q == to ==> !IsEvent(raw))
    ensures q in SendTo(m.peers, to, raw) && Same(m.peers[q], SendTo(m.peers, to, raw)[q])
  {
    if q == to { EnqueueSame(m.peers[q], raw); }
  }

  lemma SendAllSame(m: Memory, targets: set<PeerId>, raw: Raw, q: PeerId)
    requires q in m.peers && !IsEvent(raw)
    ensures Same(m.peers[q], SendAll(m.peers, targets, raw)[q])
  {
    EnqueueSame(m.peers[q], raw);
  }

  lemma NotifySilent(m: Memory, q: PeerId)
    ensures Silent(m, NotifyServer(m), q)
  {
    if q in m.peers && m.room.server.Some? {
      var r := m.room.(epoch := AtLeastOne(m.room.epoch));
      var note := Notice(Connected, r.sessionID, r.epoch).(count := |r.history|, lastEventID := Tail(r.history));
      SendToSame(m, m.room.server.value, Json(note), q);
    }
  }

  lemma SilentTrans(m: Memory, m': Memory, m'': Memory, q: PeerId)
    requires Silent(m, m', q) && Silent(m', m'', q) && (q in m.peers ==> q in m'.peers)
    ensures Silent(m, m'', q)
  {
  }

  lemma JoinSilent(m: Memory, p: PeerId, id: string, q: PeerId)
    ensures Silent(m, JoinClient(m, p, id), q)
  {
    if p !in m.peers && p in m.admitted {
      var m' := m.(room := m.room.(clients := m.room.clients + {p}), admitted := m.admitted - {p},
                   peers := m.peers[p := NewPeer(Client, id)]);
      assert Stream(NewPeer(Client, id)) == [];
      NotifySilent(m', q);
      SilentTrans(m, m', NotifyServer(m'), q);
    }
  }

  lemma ServerJoinSilent(m: Memory, p: PeerId, id: string, q: PeerId)
    ensures Silent(m, JoinServer(m, p, id), q)
  {
    assert Stream(NewPeer(Server, id)) == [];
    if q in m.peers && m.room.server.Some? {
      SendToSame(m, m.room.server.value, Json(Notice(SharingStopped, "", 0)), q);
    }
  }

  lemma ActivateSilent(m: Memory, p: PeerId, msg: Message, meta: Meta, replace: bool, q: PeerId)
    requires msg.typ == ActiveSession
    ensures Silent(m, Activate(m, p, msg, meta, replace), q)
  {
    var r := Bind(m.room.(meta := Overlay(m.room.meta, meta)), msg.sessionID, msg.epoch, replace);
    if q in m.peers { SendAllSame(m, r.clients, Json(msg.(generation := 0, epoch := r.epoch)), q); }
  }

  lemma StopSilent(m: Memory, p: PeerId, q: PeerId)
    ensures Silent(m, StopSharing(m, p), q)
  {
    var stop := Json(Notice(SharingStopped, "", 0));
    if q in m.peers {
      SendAllSame(m, m.room.clients, stop, q);
      SendToSame(m.(peers := SendAll(m.peers, m.room.clients, stop)), p, stop, q);
    }
  }

  lemma ExpireSilent(m: Memory, q: PeerId)
    ensures Silent(m, Expire(m), q)
  {
    if q in m.peers { SendAllSame(m, m.room.clients, Json(Notice(SharingStopped, "", 0)), q); }
  }

  lemma DetachSilent(m: Memory, p: PeerId, d: bool, q: PeerId)
    ensures Silent(m, Detach(m, p, d), q)
  {
    if q in m.peers { SendAllSame(m, m.room.clients, Json(Notice(ServerOffline, m.room.sessionID, 0)), q); }
  }

  /** A client's event goes to the host alone. */
  lemma ClientSendSilent(m: Memory, p: PeerId, raw: Raw, q: PeerId)
    requires Attached(m) && (q in m.peers ==> m.peers[q].role == Client)
    ensures Silent(m, ClientSend(m, p, raw), q)
  {
    if q in m.peers && m.room.server.Some? { SendToSame(m, m.room.server.value, raw, q); }
  }

  lemma OthersSilent(m: Memory, x: PeerId, msg: Message, q: PeerId)
    ensures Silent(m, Hangup(m, x), q) && Silent(m, Drain(m, x), q) && Silent(m, Control(m, x, msg), q)
  {
    if q in m.peers {
      DrainedFollows(m.peers[q], 1);
      SendToSame(m, x, Json(msg.(typ := if msg.typ == Encrypted then Connected else msg.typ)), q);
    }
  }

  lemma FailureSilent(m: Memory, i: nat, q: PeerId)
    requires i < |m.tasks|
    ensures Silent(m, TaskFailed(m, i), q)
  {
  }

  lemma OtherKeyReadySilent(m: Memory, p: PeerId, id: string, drains: seq<nat>, q: PeerId)
    requires p != q
    ensures Silent(m, KeyReady(m, p, id, drains), q)
  {
    if CanFinish(m, p, id) {
      var r := m.room.(epoch := AtLeastOne(m.room.epoch));
      var m' := m.(room := r, peers := m.peers[p := Replay(Acknowledged(m, p), After(r.history, m.peers[p].cursor), drains)]);
      NotifySilent(m', q);
      SilentTrans(m, m', NotifyServer(m'), q);
    }
  }

  lemma OtherResumeSilent(m: Memory, p: PeerId, msg: Message, loaded: string, q: PeerId)
    requires p != q
    ensures Silent(m, Resume(m, p, msg, loaded), q)
  {
  }

  // ---- Own requests ----

  /** A resume chooses the cursor and queues no event. */
  lemma OwnResume(m: Memory, q: PeerId, msg: Message, loaded: string)
    requires Running(m, q, Client)
    ensures var m' := Resume(m, q, msg, loaded);
            && q in m'.peers && SameEvents(m.peers[q], m'.peers[q]) && (m'.peers[q].ready ==> m.peers[q].ready)
            && m'.peers[q].cursor == if msg.clientID == "" then m.peers[q].cursor
                                     else ResumeCursor(m.peers[q], m.room, msg, loaded)
  {
    EnqueueSame(m.peers[q], Json(Notice(ErrorNotice, "", 0)));
    if msg.clientID != "" {
      var r := m.room.(byID := m.room.byID[msg.clientID := q], epoch := AtLeastOne(m.room.epoch));
      EnqueueSame(m.peers[q].(clientID := msg.clientID, cursor := ResumeCursor(m.peers[q], m.room, msg, loaded),
                              ready := false, waiting := true), Json(SessionNotice(r, msg.clientID)));
    }
  }

  predicate AcceptsAck(m: Memory, q: PeerId, event: string) {
    Running(m, q, Client) && event != "" && HoldsID(m, q)
  }

  lemma OwnAck(m: Memory, q: PeerId, event: string)
    requires q in m.peers
    ensures var m' := Ack(m, q, event);
            && q in m'.peers && SameEvents(m.peers[q], m'.peers[q]) && m'.peers[q].clientID == m.peers[q].clientID
            && m'.peers[q].ready == m.peers[q].ready
            && m'.peers[q].cursor == if AcceptsAck(m, q, event) && Less(m.peers[q].cursor, event) then event
                                     else m.peers[q].cursor
  {
  }

  predicate Among(raw: Raw, evs: seq<RoomEvent>) {
    exists i :: 0 <= i < |evs| && evs[i].raw == raw
  }

  lemma AmongHead(raw: Raw, evs: seq<RoomEvent>, n: nat)
    requires n < |evs|
    ensures Among(raw, evs[..n + 1]) <==> evs[0].raw == raw || Among(raw, evs[1..][..n])
  {
    if Among(raw, evs[1..][..n]) {
      var i :| 0 <= i < n && evs[1..][..n][i].raw == raw;
      assert evs[..n + 1][i + 1].raw == raw;
    }
    if evs[0].raw == raw { assert evs[..n + 1][0].raw == raw; }
    if Among(raw, evs[..n + 1]) && evs[0].raw != raw {
      var i :| 0 <= i < n + 1 && evs[..n + 1][i].raw == raw;
      assert evs[1..][..n][i - 1].raw == raw;
    }
  }

  /** The replay loop queues exactly the events it counts. */
  lemma {:induction false} ReplayStream(q: Peer, evs: seq<RoomEvent>, drains: seq<nat>, raw: Raw)
    requires !q.done
    ensures raw in Stream(Replay(q, evs, drains)) <==> raw in Stream(q) || Among(raw, evs[..Sent(q, evs, drains)])
    decreases |evs|
  {
    if evs != [] {
      var n := if drains == [] then 0 else drains[0];
      var q' := Drained(q, n);
      DrainedFollows(q, n);
      if |q'.queue| < SEND_CAPACITY - REPLAY_HEADROOM {
        var ds := if drains == [] then [] else drains[1..];
        var q'' := Enqueue(q', evs[0].raw);
        QueuedLast(q', evs[0].raw, raw);
        ReplayStream(q'', evs[1..], ds, raw);
        AmongHead(raw, evs, Sent(q'', evs[1..], ds));
      }
    }
  }

  lemma QueuedLast(q: Peer, one: Raw, raw: Raw)
    requires !q.done && |q.queue| < SEND_CAPACITY
    ensures raw in Stream(Enqueue(q, one)) <==> raw in Stream(q) || raw == one
    ensures !Enqueue(q, one).done
  {
    assert Stream(Enqueue(q, one)) == Stream(q) + [one];
  }

  /** The part of the backlog that finishing a resume queues. */
  function Replayed(m: Memory, q: PeerId, drains: seq<nat>): seq<RoomEvent>
    requires q in m.peers
  {
    var backlog := After(m.room.history, m.peers[q].cursor);
    backlog[..Sent(Acknowledged(m, q), backlog, drains)]
  }

  lemma OwnKeyReady(m: Memory, q: PeerId, id: string, drains: seq<nat>, raw: Raw)
    requires CanFinish(m, q, id) && IsEvent(raw)
    ensures var m' := KeyReady(m, q, id, drains);
            && q in m'.peers && m'.peers[q].clientID == m.peers[q].clientID && m'.peers[q].cursor == m.peers[q].cursor
            && (raw in Stream(m'.peers[q]) <==> raw in Stream(m.peers[q]) || Among(raw, Replayed(m, q, drains)))
  {
    var r := m.room.(epoch := AtLeastOne(m.room.epoch));
    var q0 := m.peers[q].(ready := true, waiting := false);
    EnqueueSame(q0, Json(ResumeNotice(r, q0.clientID, q0.cursor)));
    var backlog := After(r.history, m.peers[q].cursor);
    ReplayStream(Acknowledged(m, q), backlog, drains, raw);
    ReplayAges(Acknowledged(m, q), backlog, drains);
    NotifySilent(m.(room := r, peers := m.peers[q := Replay(Acknowledged(m, q), backlog, drains)]), q);
  }

  // ---- Broadcasts ----

  function WireOf(m: Memory, msg: Message): Raw {
    Json(Stamp(msg, Bind(m.room, msg.sessionID, msg.epoch, false)))
  }

  /** The host's new event is queued on the connection: it is one of the room's clients, still reading and
      with room, and it has finished resuming unless the event is transient. */
  predicate Receives(m: Memory, p: PeerId, msg: Message, q: PeerId) {
    && IsServer(m, p) && IsNew(Bind(m.room, msg.sessionID, msg.epoch, false).history, msg.eventID)
    && q in m.room.clients && q in m.peers && !m.peers[q].done && |m.peers[q].queue| < SEND_CAPACITY
    && (msg.eventID == "" || m.peers[q].ready)
  }

  lemma RecordedStream(m: Memory, p: PeerId, wire: Raw, q: PeerId, raw: Raw)
    requires q in m.peers
    ensures var m' := Recorded(m, p, wire); var a := m.peers[q];
            && q in m'.peers && m'.peers[q].clientID == a.clientID && m'.peers[q].cursor == a.cursor
            && m'.peers[q].ready == a.ready
            && (raw in Stream(m'.peers[q]) <==>
                || raw in Stream(a)
                || (IsNew(m.room.history, wire.msg.eventID) && q in m.room.clients && (wire.msg.eventID == "" || a.ready)
                    && !a.done && |a.queue| < SEND_CAPACITY && raw == wire))
  {
    var a := m.peers[q];
    assert Stream(a.(queue := a.queue + [wire])) == Stream(a) + [wire];
  }

  lemma BroadcastStream(m: Memory, p: PeerId, msg: Message, q: PeerId, raw: Raw)
    requires q in m.peers
    ensures var m' := Broadcast(m, p, msg);
            && q in m'.peers && m'.peers[q].clientID == m.peers[q].clientID && m'.peers[q].cursor == m.peers[q].cursor
            && m'.peers[q].ready == m.peers[q].ready
            && (raw in Stream(m'.peers[q]) <==> raw in Stream(m.peers[q]) || (Receives(m, p, msg, q) && raw == WireOf(m, msg)))
  {
    var r := Bind(m.room, msg.sessionID, msg.epoch, false);
    ClientsBound(m.room, msg.sessionID, msg.epoch);
    RecordedStream(m.(room := r), p, WireOf(m, msg), q, raw);
  }

  /** A broadcast leaves everyone alone who is not one of the room's clients, and an event with an id leaves
      alone every client that has not finished resuming. */
  lemma BroadcastSkips(m: Memory, p: PeerId, msg: Message, q: PeerId)
    requires q in m.peers && (q !in m.room.clients || (msg.eventID != "" && !m.peers[q].ready))
    ensures q in Broadcast(m, p, msg).peers && Broadcast(m, p, msg).peers[q] == m.peers[q]
  {
    if IsServer(m, p) {
      var r := Bind(m.room, msg.sessionID, msg.epoch, false);
      ClientsBound(m.room, msg.sessionID, msg.epoch);
      RecordedSkips(m.(room := r), p, Json(Stamp(msg, r)), q);
    }
  }

  lemma ClientsBound(r: Room, sid: string, epoch: nat)
    ensures Bind(r, sid, epoch, false).clients == r.clients
  {
  }

  lemma RecordedSkips(m: Memory, p: PeerId, wire: Raw, q: PeerId)
    requires q in m.peers && (q !in m.room.clients || (wire.msg.eventID != "" && !m.peers[q].ready))
    ensures q in Recorded(m, p, wire).peers && Recorded(m, p, wire).peers[q] == m.peers[q]
  {
  }

  // ---- One step ----

  predicate InStream(m: Memory, q: PeerId, raw: Raw) {
    q in m.peers && raw in Stream(m.peers[q])
  }

  /** The step queues the event on the connection: live, or in a replay. */
  predicate Queues(s: State, step: Step, q: PeerId, raw: Raw) {
    match step
    case DoBroadcast(p, msg) => msg.typ == Encrypted && Receives(s.mem, p, msg, q) && raw == WireOf(s.mem, msg)
    case DoKeyReady(p, id, drains) => p == q && CanFinish(s.mem, p, id) && Among(raw, Replayed(s.mem, p, drains))
    case _ => false
  }

  /** Steps that do nothing for this connection but queue notices. */
  predicate IsSilent(step: Step, q: PeerId) {
    !step.DoBroadcast? && !(step.DoKeyReady? && step.p == q) && !(step.DoResume? && step.p == q)
    && !(step.DoAck? && step.p == q)
  }

  lemma HostSilent(s: State, step: Step, q: PeerId)
    requires ByHost(step) && !step.DoBroadcast?
    ensures Silent(s.mem, Apply(s, step).mem, q)
  {
    match step
    case DoJoinServer(p, id) => ServerJoinSilent(s.mem, p, id, q);
    case DoActivate(p, msg, sid, meta, replace) =>
      if msg.typ == ActiveSession { ActivateSilent(s.mem, p, Named(msg, sid), meta, replace, q); }
    case DoServerReady(p) =>
    case DoStopSharing(p) => StopSilent(s.mem, p, q);
  }

  lemma ClientSilent(s: State, step: Step, q: PeerId)
    requires ByClient(step) && IsSilent(step, q) && Attached(s.mem)
    requires q in s.mem.peers ==> s.mem.peers[q].role == Client
    ensures Silent(s.mem, Apply(s, step).mem, q)
  {
    match step
    case DoAdmit(p) =>
    case DoJoinClient(p, id) => JoinSilent(s.mem, p, id, q);
    case DoClientSend(p, raw) => if raw.msg.typ == Encrypted { ClientSendSilent(s.mem, p, raw, q); }
    case DoResume(p, msg, loads) => OtherResumeSilent(s.mem, p, msg, LoadsCursor(s, p, msg.clientID, loads), q);
    case DoKeyReady(p, id, drains) => OtherKeyReadySilent(s.mem, p, id, drains, q);
    case DoAck(p, id) =>
  }

  lemma StepSilent(s: State, step: Step, q: PeerId)
    requires IsSilent(step, q) && Attached(s.mem) && (q in s.mem.peers ==> s.mem.peers[q].role == Client)
    ensures Silent(s.mem, Apply(s, step).mem, q)
  {
    if ByHost(step) {
      HostSilent(s, step, q);
    } else if ByClient(step) {
      ClientSilent(s, step, q);
    } else {
      match step
      case DoDetach(p, d) => DetachSilent(s.mem, p, d, q);
      case DoExpire => ExpireSilent(s.mem, q);
      case DoHangup(p) => OthersSilent(s.mem, p, Notice(Connected, "", 0), q);
      case DoControl(x, msg) => OthersSilent(s.mem, x, msg, q);
      case DoDrain(x) => OthersSilent(s.mem, x, Notice(Connected, "", 0), q);
      case DoTask(i, commits, _) => if i < |s.mem.tasks| { FailureSilent(s.mem, i, q); }
      case _ =>
    }
  }

  lemma StepStream(s: State, step: Step, q: PeerId, raw: Raw)
    requires Attached(s.mem) && IsEvent(raw) && (q in s.mem.peers ==> s.mem.peers[q].role == Client)
    ensures InStream(Apply(s, step).mem, q, raw) <==> InStream(s.mem, q, raw) || Queues(s, step, q, raw)
  {
    FineStep(s, step);
    if IsSilent(step, q) {
      StepSilent(s, step, q);
    } else {
      match step
      case DoBroadcast(p, msg) => if q in s.mem.peers { BroadcastStream(s.mem, p, msg, q, raw); }
      case DoKeyReady(p, id, drains) => if CanFinish(s.mem, p, id) { OwnKeyReady(s.mem, q, id, drains, raw); }
      case DoResume(p, msg, loads) =>
        if Running(s.mem, q, Client) { OwnResume(s.mem, q, msg, LoadsCursor(s, q, msg.clientID, loads)); }
      case DoAck(p, id) => if q in s.mem.peers { OwnAck(s.mem, q, id); }
    }
  }

  // ---- Whole runs ----

  predicate EverQueued(s: State, steps: seq<Step>, q: PeerId, raw: Raw) {
    && steps != []
    && (EverQueued(s, steps[..|steps| - 1], q, raw)
        || Queues(Run(s, steps[..|steps| - 1]), steps[|steps| - 1], q, raw))
  }

  lemma {:induction false} AttachedAlways(key: Key, store: Tables, steps: seq<Step>)
    ensures Attached(Run(Init(key, store), steps).mem)
  {
    if steps != [] {
      AttachedAlways(key, store, steps[..|steps| - 1]);
      FineStep(Run(Init(key, store), steps[..|steps| - 1]), steps[|steps| - 1]);
    }
  }

  /** In every run, an event was queued on a client's connection exactly when, at some step, the host sent
      it live while the connection was ready, reading and had room, or a replay for it included it. */
  lemma {:induction false} QueuedIff(key: Key, store: Tables, steps: seq<Step>, q: PeerId, raw: Raw)
    requires IsEvent(raw)
    requires q in Run(Init(key, store), steps).mem.peers && Run(Init(key, store), steps).mem.peers[q].role == Client
    ensures InStream(Run(Init(key, store), steps).mem, q, raw) <==> EverQueued(Init(key, store), steps, q, raw)
  {
    if steps != [] {
      var before, step := steps[..|steps| - 1], steps[|steps| - 1];
      var u := Run(Init(key, store), before);
      AttachedAlways(key, store, before);
      FineStep(u, step);
      if q in u.mem.peers {
        QueuedIff(key, store, before, q, raw);
      } else {
        NeverHere(key, store, before, q, raw);
      }
      StepStream(u, step, q, raw);
    }
  }

  lemma {:induction false} NeverHere(key: Key, store: Tables, steps: seq<Step>, q: PeerId, raw: Raw)
    requires q !in Run(Init(key, store), steps).mem.peers
    ensures !EverQueued(Init(key, store), steps, q, raw)
  {
    if steps != [] {
      FineStep(Run(Init(key, store), steps[..|steps| - 1]), steps[|steps| - 1]);
      NeverHere(key, store, steps[..|steps| - 1], q, raw);
    }
  }

  // ---- Before and after the first resume ----

  /** Some step of the run finished a resume of this connection. */
  predicate Finished(s: State, steps: seq<Step>, q: PeerId) {
    && steps != []
    && var before, step := steps[..|steps| - 1], steps[|steps| - 1];
       || Finished(s, before, q)
       || (step.DoKeyReady? && step.p == q && CanFinish(Run(s, before).mem, q, step.clientID))
  }

  lemma StepReady(s: State, step: Step, q: PeerId)
    requires Attached(s.mem) && (q in s.mem.peers ==> s.mem.peers[q].role == Client)
    requires q in s.mem.peers ==> !s.mem.peers[q].ready
    requires !(step.DoKeyReady? && step.p == q && CanFinish(s.mem, q, step.clientID))
    ensures q in Apply(s, step).mem.peers ==> !Apply(s, step).mem.peers[q].ready
  {
    FineStep(s, step);
    if IsSilent(step, q) {
      StepSilent(s, step, q);
    } else {
      match step
      case DoBroadcast(p, msg) => if q in s.mem.peers { BroadcastStream(s.mem, p, msg, q, Json(msg)); }
      case DoKeyReady(p, id, drains) =>
      case DoResume(p, msg, loads) =>
        if Running(s.mem, q, Client) { OwnResume(s.mem, q, msg, LoadsCursor(s, q, msg.clientID, loads)); }
      case DoAck(p, id) => if q in s.mem.peers { OwnAck(s.mem, q, id); }
    }
  }

  /** In every run, a client's connection that never finished a resume is not ready and was never queued
      an event. */
  lemma {:induction false} NothingBeforeResume(key: Key, store: Tables, steps: seq<Step>, q: PeerId, raw: Raw)
    requires NeverHost(Run(Init(key, store), steps).mem, q) && !Finished(Init(key, store), steps, q) && IsEvent(raw)
    ensures var m := Run(Init(key, store), steps).mem;
            q in m.peers ==> !m.peers[q].ready && raw !in Stream(m.peers[q])
  {
    if steps != [] {
      var before, step := steps[..|steps| - 1], steps[|steps| - 1];
      var u := Run(Init(key, store), before);
      FineStep(u, step);
      AttachedAlways(key, store, before);
      NothingBeforeResume(key, store, before, q, raw);
      StepReady(u, step, q);
      StepStream(u, step, q, raw);
    }
  }

  lemma {:induction false} NoneDelivered(frames: seq<Raw>)
    requires forall i :: 0 <= i < |frames| ==> !IsEvent(frames[i])
    ensures Delivered(frames) == []
  {
    if frames != [] { NoneDelivered(frames[..|frames| - 1]); }
  }

  predicate NoRepeats(ids: seq<string>) {
    forall i, j :: 0 <= i < j < |ids| ==> ids[i] != ids[j]
  }

  lemma PartsDistinct(h: seq<string>, k: nat, n: nat, live: seq<string>)
    requires k <= |h| && n <= |h| - k && NoRepeats(h + live)
    ensures NoRepeats(h[k..][..n] + live)
  {
    var all, part := h + live, h[k..][..n] + live;
    forall i, j | 0 <= i < j < |part| ensures part[i] != part[j] {
      assert part[i] == all[if i < n then k + i else |h| + i - n];
      assert part[j] == all[if j < n then k + j else |h| + j - n];
    }
  }

  /** A connection that finishes its first resume and does not resume again holds, unless it was lost,
      exactly the replayed part of the history followed by the host's events since; and if the history's
      ids and those events' ids are distinct, it was queued no id twice. */
  lemma ResumedOnceNoRepeats(
    key: Key, store: Tables, past: seq<Step>, c: PeerId, id: string, drains: seq<nat>, steps: seq<Step>)
    requires FaithfulStore(store) && !Finished(Init(key, store), past, c)
    requires CanFinish(Run(Init(key, store), past).mem, c, id) && NoResume(steps, c)
    requires !Lost(Run(Init(key, store), past).mem.peers[c])
    ensures var s := Run(Init(key, store), past);
            var s0 := Apply(s, DoKeyReady(c, id, drains)); var t := Run(s0, steps).mem;
            var h := s.mem.room.history; var backlog := After(h, s.mem.peers[c].cursor);
            var sent := Sent(Acknowledged(s.mem, c), backlog, drains);
            && c in t.peers
            && (Lost(t.peers[c]) ||
                (Delivered(Stream(t.peers[c])) == Ids(backlog)[..sent] + HostEvents(s0, steps)
                 && (NoRepeats(Ids(h) + HostEvents(s0, steps)) ==> NoRepeats(Delivered(Stream(t.peers[c]))))))
  {
    var s := Run(Init(key, store), past);
    var h, cursor := s.mem.room.history, s.mem.peers[c].cursor;
    var frames := Stream(s.mem.peers[c]);
    forall i | 0 <= i < |frames| ensures !IsEvent(frames[i]) {
      if IsEvent(frames[i]) { NothingBeforeResume(key, store, past, c, frames[i]); }
    }
    NoneDelivered(frames);
    ResumeIsGapFree(key, store, past, c, id, drains, steps);
    var s0 := Apply(s, DoKeyReady(c, id, drains));
    var sent := Sent(Acknowledged(s.mem, c), After(h, cursor), drains);
    var live := HostEvents(s0, steps);
    IdsDrop(h, AfterStart(h, cursor));
    assert [] + (Ids(After(h, cursor))[..sent] + live) == Ids(After(h, cursor))[..sent] + live;
    if NoRepeats(Ids(h) + live) { PartsDistinct(Ids(h), AfterStart(h, cursor), sent, live); }
  }

  // ---- The cursor ----

  function CursorOf(m: Memory, q: PeerId): string {
    if q in m.peers then m.peers[q].cursor else ""
  }

  /** The cursor a connection's last resume chose, followed by what it acknowledged as its id's holder
      since, in whatever sessions. */
  function Marks(s: State, steps: seq<Step>, q: PeerId): seq<string> {
    if steps == [] then [CursorOf(s.mem, q)]
    else
      var before, step := steps[..|steps| - 1], steps[|steps| - 1];
      var u := Run(s, before);
      if step.DoResume? && step.p == q && Running(u.mem, q, Client) && step.msg.clientID != ""
      then [ResumeCursor(u.mem.peers[q], u.mem.room, step.msg, LoadsCursor(u, q, step.msg.clientID, step.loads))]
      else if step.DoAck? && step.p == q && AcceptsAck(u.mem, q, step.eventID)
      then Marks(s, before, q) + [step.eventID]
      else Marks(s, before, q)
  }

  lemma StepCursor(s: State, step: Step, q: PeerId)
    requires Attached(s.mem) && (q in s.mem.peers ==> s.mem.peers[q].role == Client)
    ensures var c := CursorOf(s.mem, q);
            CursorOf(Apply(s, step).mem, q) ==
            if step.DoResume? && step.p == q && Running(s.mem, q, Client) && step.msg.clientID != ""
            then ResumeCursor(s.mem.peers[q], s.mem.room, step.msg, LoadsCursor(s, q, step.msg.clientID, step.loads))
            else if step.DoAck? && step.p == q && AcceptsAck(s.mem, q, step.eventID) && Less(c, step.eventID)
            then step.eventID else c
  {
    FineStep(s, step);
    if IsSilent(step, q) {
      StepSilent(s, step, q);
    } else {
      match step
      case DoBroadcast(p, msg) => if q in s.mem.peers { BroadcastStream(s.mem, p, msg, q, Json(msg)); }
      case DoKeyReady(p, id, drains) =>
        if CanFinish(s.mem, p, id) { OwnKeyReady(s.mem, q, id, drains, Json(Notice(Encrypted, "", 0).(eventID := "x"))); }
      case DoResume(p, msg, loads) =>
        if Running(s.mem, q, Client) { OwnResume(s.mem, q, msg, LoadsCursor(s, q, msg.clientID, loads)); }
      case DoAck(p, id) => if q in s.mem.peers { OwnAck(s.mem, q, id); }
    }
  }

  predicate NeverHost(m: Memory, q: PeerId) { q in m.peers ==> m.peers[q].role == Client }

  /** In every run a connection's cursor is the largest of the cursor its last resume chose and the ids it
      has acknowledged since, across changes of session. */
  lemma {:induction false} ConnectionCursorIsMax(key: Key, store: Tables, steps: seq<Step>, q: PeerId)
    requires NeverHost(Run(Init(key, store), steps).mem, q)
    ensures IsMax(CursorOf(Run(Init(key, store), steps).mem, q), Marks(Init(key, store), steps, q))
  {
    var s0 := Init(key, store);
    if steps == [] {
      Irreflexive("");
    } else {
      var before, step := steps[..|steps| - 1], steps[|steps| - 1];
      var u := Run(s0, before);
      FineStep(u, step);
      ConnectionCursorIsMax(key, store, before, q);
      AttachedAlways(key, store, before);
      StepCursor(u, step, q);
      Irreflexive(CursorOf(Apply(u, step).mem, q));
      if step.DoAck? && step.p == q && AcceptsAck(u.mem, q, step.eventID) {
        MaxExtends(CursorOf(u.mem, q), Marks(s0, before, q), step.eventID);
      }
    }
  }

  predicate Exceeds(event: string, marks: seq<string>) {
    forall i :: 0 <= i < |marks| ==> Less(marks[i], event)
  }

  lemma ExceedsIff(m: string, marks: seq<string>, event: string)
    requires IsMax(m, marks)
    ensures Exceeds(event, marks) <==> Less(m, event)
  {
    if Less(m, event) {
      forall i | 0 <= i < |marks| ensures Less(marks[i], event) {
        Total(m, marks[i]);
        if marks[i] != m { Transitive(marks[i], m, event); }
      }
    }
  }

  /** In every run, an acknowledgement by its id's holder is recorded exactly when it exceeds the cursor the
      connection's last resume chose and everything it has acknowledged since, whatever the sessions. Then
      the cursor moves and one cursor write starts; otherwise nothing at all changes. */
  lemma AckRecordedIff(key: Key, store: Tables, steps: seq<Step>, q: PeerId, event: string)
    requires AcceptsAck(Run(Init(key, store), steps).mem, q, event)
    ensures var s := Run(Init(key, store), steps); var t := Apply(s, DoAck(q, event));
            if Exceeds(event, Marks(Init(key, store), steps, q))
            then CursorOf(t.mem, q) == event
                 && t.mem.tasks == s.mem.tasks + [SaveCursor(s.mem.peers[q].clientID, s.mem.room.sessionID, event)]
            else t == s
  {
    ConnectionCursorIsMax(key, store, steps, q);
    var s := Run(Init(key, store), steps);
    ExceedsIff(CursorOf(s.mem, q), Marks(Init(key, store), steps, q), event);
  }

  /** The write then moves the stored cursor exactly when it exceeds the stored id, of whatever session. */
  lemma SaveRecordedIff(t: Tables, key: Key, client: string, sid: string, event: string, now: int)
    ensures CursorSaved(t, key, client, sid, event, now) != t <==>
            (key, client) !in t.cursors || Less(t.cursors[(key, client)].acked, event)
  {
    if (key, client) in t.cursors && Less(t.cursors[(key, client)].acked, event) {
      Irreflexive(event);
      assert CursorSaved(t, key, client, sid, event, now).cursors[(key, client)].acked == event;
    }
  }
}
