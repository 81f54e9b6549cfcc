/** What the handlers leave alone. */
module RelayFrames {
  import opened Messages
  import opened Store
  import opened Relay
  import opened RelayMachine

  /** The two rooms have the same session and history; the epoch may have been initialised. */
  predicate SameContent(a: Room, b: Room) {
    && a.history == b.history && a.sessionID == b.sessionID && a.restored == b.restored && a.meta == b.meta
    && (b.epoch == a.epoch || b.epoch == AtLeastOne(a.epoch))
  }

  /** Steps that can change a room's session or history. */
  predicate Writes(step: Step) {
    step.DoHydrate? || step.DoBroadcast? || step.DoClientSend? || step.DoActivate? || step.DoCrash?
  }

  lemma QuietStep(s: State, step: Step)
    requires !Writes(step)
    ensures SameContent(s.mem.room, Apply(s, step).mem.room)
  {
    match step
    case DoJoinClient(p, id) => QuietJoin(s.mem, p, id);
    case DoResume(p, msg, loads) => QuietResume(s.mem, p, msg, LoadsCursor(s, p, msg.clientID, loads));
    case DoKeyReady(p, id, drains) => QuietKeyReady(s.mem, p, id, drains);
    case DoDetach(p, d) => QuietDetach(s.mem, p, d);
    case DoTask(i, _, _) => if i < |s.mem.tasks| { QuietFailure(s.mem, i); }
    case _ =>
  }

  lemma QuietJoin(m: Memory, p: PeerId, id: string)
    ensures SameContent(m.room, JoinClient(m, p, id).room)
  {
  }

  lemma QuietResume(m: Memory, p: PeerId, msg: Message, loaded: string)
    ensures SameContent(m.room, Resume(m, p, msg, loaded).room)
  {
  }

  lemma QuietKeyReady(m: Memory, p: PeerId, id: string, drains: seq<nat>)
    ensures SameContent(m.room, KeyReady(m, p, id, drains).room)
  {
  }

  lemma QuietDetach(m: Memory, p: PeerId, d: bool)
    ensures SameContent(m.room, Detach(m, p, d).room)
  {
  }

  lemma QuietFailure(m: Memory, i: nat)
    requires i < |m.tasks|
    ensures TaskFailed(m, i).room == m.room
  {
  }

  /** Only persist tasks add rows, and only with a session and an event id. */
  lemma StepStore(s: State, step: Step)
    requires !(step.DoTask? && step.commits) && !step.DoCleanup?
    ensures Apply(s, step).store == s.store
  {
  }

  /** What any step leaves in the store. */
  lemma StoreAfter(s: State, step: Step)
    ensures Apply(s, step).store ==
            if step.DoCleanup? then Cleaned(s.store, step.cutoff)
            else if step.DoTask? && step.i < |s.mem.tasks| && (step.commits || IsNoOp(s.mem.tasks[step.i]))
            then TaskStore(s.store, s.key, s.mem.tasks[step.i], step.now)
            else s.store
  {
  }

  lemma StepKey(s: State, step: Step)
    ensures Apply(s, step).key == s.key
  {
  }

  lemma {:induction false} KeyAlways(s: State, steps: seq<Step>)
    ensures Run(s, steps).key == s.key
  {
    if steps != [] {
      KeyAlways(s, steps[..|steps| - 1]);
      StepKey(Run(s, steps[..|steps| - 1]), steps[|steps| - 1]);
    }
  }
}

/** Connections are never forgotten, never change role, and stay done or closed once they are. */
module RelayPeers {
  import opened Messages
  import opened History
  import opened Store
  import opened Relay
  import opened RelayMachine

  predicate Ages(a: Peer, b: Peer) {
    b.role == a.role && (a.done ==> b.done) && (a.closed ==> b.closed)
  }

  predicate Grows(before: map<PeerId, Peer>, after: map<PeerId, Peer>) {
    forall q :: q in before ==> q in after && Ages(before[q], after[q])
  }

  /** Running clients are in the room's client set, and its server is a host connection. */
  predicate Attached(m: Memory) {
    && (forall p :: p in m.peers && m.peers[p].role == Client && !m.peers[p].done ==> p in m.room.clients)
    && (m.room.server.Some? ==> m.room.server.value in m.peers && m.peers[m.room.server.value].role == Server)
  }

  /** The handler keeps `Grows`, and keeps running clients attached. */
  predicate Fine(m: Memory, m': Memory) {
    Grows(m.peers, m'.peers) && (Attached(m) ==> Attached(m'))
  }

  lemma {:induction false} ReplayAges(q: Peer, evs: seq<RoomEvent>, drains: seq<nat>)
    ensures var r := Replay(q, evs, drains);
            Ages(q, r) && r.done == q.done && r.clientID == q.clientID && r.cursor == q.cursor
            && r.ready == q.ready && r.waiting == q.waiting
    decreases |evs|
  {
    if evs != [] {
      var q' := Drained(q, if drains == [] then 0 else drains[0]);
      if |q'.queue| < SEND_CAPACITY - REPLAY_HEADROOM {
        ReplayAges(Enqueue(q', evs[0].raw), evs[1..], if drains == [] then [] else drains[1..]);
      }
    }
  }

  lemma FineJoinServer(m: Memory, p: PeerId, id: string)
    ensures Fine(m, JoinServer(m, p, id))
  {
  }

  lemma FineJoinClient(m: Memory, p: PeerId, id: string)
    ensures Fine(m, JoinClient(m, p, id))
  {
  }

  lemma FineResume(m: Memory, p: PeerId, msg: Message, loaded: string)
    ensures Fine(m, Resume(m, p, msg, loaded))
  {
  }

  lemma FineKeyReady(m: Memory, p: PeerId, id: string, drains: seq<nat>)
    ensures Fine(m, KeyReady(m, p, id, drains))
  {
    if CanFinish(m, p, id) {
      var r := m.room.(epoch := AtLeastOne(m.room.epoch));
      var q := Replay(Acknowledged(m, p), After(r.history, m.peers[p].cursor), drains);
      ReplayAges(Acknowledged(m, p), After(r.history, m.peers[p].cursor), drains);
      var m' := m.(room := r, peers := m.peers[p := q]);
      assert Fine(m, m');
      FineNotify(m');
    }
  }

  lemma FineNotify(m: Memory)
    ensures Fine(m, NotifyServer(m))
  {
  }

  lemma FineDetach(m: Memory, p: PeerId, d: bool)
    ensures Fine(m, Detach(m, p, d))
  {
  }

  lemma FineStop(m: Memory, p: PeerId)
    ensures Fine(m, StopSharing(m, p))
  {
    assert Grows(m.peers, SendAll(m.peers, m.room.clients, Json(Notice(SharingStopped, "", 0))));
  }

  lemma FineExpire(m: Memory)
    ensures Fine(m, Expire(m))
  {
  }

  lemma FineSendAll(peers: map<PeerId, Peer>, targets: set<PeerId>, raw: Raw)
    ensures Grows(peers, SendAll(peers, targets, raw)) && SendAll(peers, targets, raw).Keys == peers.Keys
    ensures forall q :: q in peers ==> SendAll(peers, targets, raw)[q].done == peers[q].done
  {
  }

  lemma FineRecorded(m: Memory, p: PeerId, wire: Raw)
    ensures Fine(m, Recorded(m, p, wire))
  {
    FineSendAll(m.peers, Targets(m, wire.msg.eventID), wire);
  }

  lemma FineBroadcast(m: Memory, p: PeerId, msg: Message)
    ensures Fine(m, Broadcast(m, p, msg))
  {
    var r := Bind(m.room, msg.sessionID, msg.epoch, false);
    assert Fine(m, m.(room := r));
    FineRecorded(m.(room := r), p, Json(Stamp(msg, r)));
  }

  lemma FineClientSend(m: Memory, p: PeerId, raw: Raw)
    ensures Fine(m, ClientSend(m, p, raw))
  {
  }

  lemma FineActivate(m: Memory, p: PeerId, msg: Message, meta: Meta, replace: bool)
    ensures Fine(m, Activate(m, p, msg, meta, replace))
  {
  }

  lemma FineFailure(m: Memory, i: nat)
    requires i < |m.tasks|
    ensures Fine(m, TaskFailed(m, i))
  {
  }

  lemma FineOthers(m: Memory, q: PeerId, msg: Message)
    ensures Fine(m, Hangup(m, q)) && Fine(m, Control(m, q, msg)) && Fine(m, Drain(m, q))
  {
  }

  lemma FineBroadcastStep(s: State, p: PeerId, msg: Message)
    ensures Fine(s.mem, Apply(s, DoBroadcast(p, msg)).mem)
  {
    if msg.typ == Encrypted { FineBroadcast(s.mem, p, msg); }
  }

  lemma FineHostStep(s: State, step: Step)
    requires ByHost(step)
    ensures Fine(s.mem, Apply(s, step).mem)
  {
    match step
    case DoJoinServer(p, id) => FineJoinServer(s.mem, p, id);
    case DoBroadcast(p, msg) => FineBroadcastStep(s, p, msg);
    case DoActivate(p, msg, sid, meta, replace) =>
      if msg.typ == ActiveSession { FineActivate(s.mem, p, Named(msg, sid), meta, replace); }
    case DoServerReady(p) =>
    case DoStopSharing(p) => FineStop(s.mem, p);
  }

  lemma FineClientStep(s: State, step: Step)
    requires ByClient(step)
    ensures Fine(s.mem, Apply(s, step).mem)
  {
    match step
    case DoAdmit(p) =>
    case DoJoinClient(p, id) => FineJoinClient(s.mem, p, id);
    case DoClientSend(p, raw) => if raw.msg.typ == Encrypted { FineClientSend(s.mem, p, raw); }
    case DoResume(p, msg, loads) => FineResume(s.mem, p, msg, LoadsCursor(s, p, msg.clientID, loads));
    case DoKeyReady(p, id, drains) => FineKeyReady(s.mem, p, id, drains);
    case DoAck(p, id) => FineAck(s.mem, p, id);
  }

  lemma FineAck(m: Memory, p: PeerId, id: string)
    ensures Fine(m, Ack(m, p, id))
  {
  }

  lemma FineStep(s: State, step: Step)
    ensures Fine(s.mem, Apply(s, step).mem)
  {
    if ByHost(step) {
      FineHostStep(s, step);
    } else if ByClient(step) {
      FineClientStep(s, step);
    } else {
      match step
      case DoDetach(p, d) => FineDetach(s.mem, p, d);
      case DoExpire => FineExpire(s.mem);
      case DoTask(i, commits, _) => if i < |s.mem.tasks| && !commits { FineFailure(s.mem, i); }
      case DoHangup(p) => FineOthers(s.mem, p, Notice(Connected, "", 0));
      case DoControl(q, msg) => FineOthers(s.mem, q, msg);
      case DoDrain(q) => FineOthers(s.mem, q, Notice(Connected, "", 0));
      case _ =>
    }
  }
}
