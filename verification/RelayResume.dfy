/** Resuming is gap-free: what a client is queued is its backlog followed by every new host event. */
module RelayResume {
  import opened Messages
  import opened History
  import opened Store
  import opened Relay
  import opened RelayMachine
  import opened RelayFrames
  import opened RelayPeers
  import opened RelayWellFormed
  import opened RelaySessions

  // ---- The events on a connection ----

  predicate IsEvent(raw: Raw) {
    raw.msg.typ == Encrypted && raw.msg.eventID != ""
  }

  /** The ids of the non-transient events among some frames, in order. */
  function Delivered(frames: seq<Raw>): seq<string> {
    if frames == [] then []
    else
      var last := frames[|frames| - 1];
      Delivered(frames[..|frames| - 1]) + (if IsEvent(last) then [last.msg.eventID] else [])
  }

  lemma {:induction false} DeliveredConcat(a: seq<Raw>, b: seq<Raw>)
    ensures Delivered(a + b) == Delivered(a) + Delivered(b)
  {
    if b == [] {
      assert a + b == a;
    } else {
      var last := |b| - 1;
      assert (a + b)[..|a + b| - 1] == a + b[..last];
      DeliveredConcat(a, b[..last]);
    }
  }

  lemma DeliveredOne(raw: Raw)
    ensures Delivered([raw]) == if IsEvent(raw) then [raw.msg.eventID] else []
  {
    assert [raw][..0] == [];
  }

  /** Everything ever queued on a connection. */
  function Stream(q: Peer): seq<Raw> { q.written + q.queue }

  predicate Lost(q: Peer) { q.closed || q.done }

  /** `b` is `a` after queueing exactly the events `ids`, unless the connection was lost. */
  predicate Follows(a: Peer, b: Peer, ids: seq<string>) {
    (Lost(a) ==> Lost(b)) && (Lost(b) || Delivered(Stream(b)) == Delivered(Stream(a)) + ids)
  }

  lemma FollowsTrans(a: Peer, b: Peer, c: Peer, x: seq<string>, y: seq<string>)
    requires Follows(a, b, x) && Follows(b, c, y)
    ensures Follows(a, c, x + y)
  {
    assert Delivered(Stream(a)) + (x + y) == Delivered(Stream(a)) + x + y;
  }

  lemma EnqueueFollows(q: Peer, raw: Raw)
    ensures Follows(q, Enqueue(q, raw), if IsEvent(raw) then [raw.msg.eventID] else [])
  {
    DeliveredConcat(Stream(q), [raw]);
    DeliveredOne(raw);
    assert q.written + (q.queue + [raw]) == Stream(q) + [raw];
  }

  lemma DrainedFollows(q: Peer, n: nat)
    ensures Stream(Drained(q, n)) == Stream(q) && Follows(q, Drained(q, n), [])
  {
    assert Stream(Drained(q, n)) == Stream(q);
  }

  // ---- The replay loop ----

  /** How many events of the backlog the replay loop queues. */
  function Sent(q: Peer, evs: seq<RoomEvent>, drains: seq<nat>): (n: nat)
    ensures n <= |evs|
    decreases |evs|
  {
    if evs == [] then 0
    else
      var q' := Drained(q, if drains == [] then 0 else drains[0]);
      if |q'.queue| >= SEND_CAPACITY - REPLAY_HEADROOM then 0
      else 1 + Sent(Enqueue(q', evs[0].raw), evs[1..], if drains == [] then [] else drains[1..])
  }

  lemma IdsHead(evs: seq<RoomEvent>, n: nat)
    requires n < |evs|
    ensures Ids(evs)[..n + 1] == [evs[0].eventID] + Ids(evs[1..])[..n]
  {
  }

  /** One turn of the loop: the writer drains `a` to `b`, the head is queued, and the rest leads to `d`. */
  lemma QueueFollows(a: Peer, b: Peer, evs: seq<RoomEvent>, d: Peer, n: nat)
    requires evs != [] && n < |evs| && FaithfulEvent(evs[0]) && Follows(a, b, [])
    requires Follows(Enqueue(b, evs[0].raw), d, Ids(evs[1..])[..n])
    ensures Follows(a, d, Ids(evs)[..n + 1])
  {
    var c, id := Enqueue(b, evs[0].raw), [evs[0].eventID];
    EnqueueFollows(b, evs[0].raw);
    IdsHead(evs, n);
    FollowsTrans(a, b, c, [], id);
    FollowsTrans(a, c, d, [] + id, Ids(evs[1..])[..n]);
  }

  /** The replay queues a prefix of the backlog, in order. */
  lemma {:induction false} ReplayFollows(q: Peer, evs: seq<RoomEvent>, drains: seq<nat>)
    requires FaithfulHistory(evs)
    ensures Follows(q, Replay(q, evs, drains), Ids(evs)[..Sent(q, evs, drains)])
    decreases |evs|
  {
    if evs != [] {
      var q' := Drained(q, if drains == [] then 0 else drains[0]);
      DrainedFollows(q, if drains == [] then 0 else drains[0]);
      if |q'.queue| < SEND_CAPACITY - REPLAY_HEADROOM {
        var ds := if drains == [] then [] else drains[1..];
        ReplayFollows(Enqueue(q', evs[0].raw), evs[1..], ds);
        var q'' := Enqueue(q', evs[0].raw);
        QueueFollows(q, q', evs, Replay(q'', evs[1..], ds), Sent(q'', evs[1..], ds));
      }
    }
  }

  /** Whatever the writer drains meanwhile: the loop never closes the connection, a headroom that was
      free stays free, and a backlog that fits above the headroom is sent completely. */
  lemma {:induction false} ReplayHeadroom(q: Peer, evs: seq<RoomEvent>, drains: seq<nat>)
    ensures Replay(q, evs, drains).closed == q.closed
    ensures 2048 - |q.queue| >= 64 ==> 2048 - |Replay(q, evs, drains).queue| >= 64
    ensures |q.queue| + |evs| <= 2048 - 64 ==> Sent(q, evs, drains) == |evs|
    decreases |evs|
  {
    if evs != [] {
      var q' := Drained(q, if drains == [] then 0 else drains[0]);
      if |q'.queue| < SEND_CAPACITY - REPLAY_HEADROOM {
        ReplayHeadroom(Enqueue(q', evs[0].raw), evs[1..], if drains == [] then [] else drains[1..]);
      }
    }
  }

  /** With a writer that takes nothing meanwhile, the replay is complete exactly when the backlog fits. */
  lemma {:induction false} ReplayCompleteIff(q: Peer, evs: seq<RoomEvent>, drains: seq<nat>)
    requires !q.done && forall i :: 0 <= i < |drains| ==> drains[i] == 0
    ensures Sent(q, evs, drains) == |evs| <==> evs == [] || |q.queue| + |evs| <= SEND_CAPACITY - REPLAY_HEADROOM
    decreases |evs|
  {
    if evs != [] {
      var rest := if drains == [] then [] else drains[1..];
      if |q.queue| < SEND_CAPACITY - REPLAY_HEADROOM {
        ReplayCompleteIff(Enqueue(q, evs[0].raw), evs[1..], rest);
      }
    }
  }

  /** The writer takes from the front: as many as it asks for, or all there are. */
  lemma DrainTakes(q: Peer, n: nat)
    requires !q.done
    ensures var d := Drained(q, n);
            && Stream(d) == Stream(q) && q.written <= d.written
            && |d.queue| == (if n <= |q.queue| then |q.queue| - n else 0)
            && d.closed == q.closed && d.cursor == q.cursor && !d.done
  {
    DrainedFollows(q, n);
  }

  /** A writer that takes at least one message before every iteration keeps the replay going: from a queue
      with the headroom free, a backlog of any length is sent completely. */
  lemma {:induction false} KeptUpReplayIsComplete(q: Peer, evs: seq<RoomEvent>, drains: seq<nat>)
    requires !q.done && |q.queue| <= SEND_CAPACITY - REPLAY_HEADROOM
    requires |drains| >= |evs| && forall i :: 0 <= i < |evs| ==> drains[i] >= 1
    ensures Sent(q, evs, drains) == |evs|
    decreases |evs|
  {
    if evs != [] {
      DrainTakes(q, drains[0]);
      var q' := Drained(q, drains[0]);
      KeptUpReplayIsComplete(Enqueue(q', evs[0].raw), evs[1..], drains[1..]);
    }
  }

  // ---- One step, seen from a resumed client ----

  /** The client has finished resuming and nothing sent to it was dropped. */
  predicate Following(m: Memory, p: PeerId) {
    && p in m.peers && m.peers[p].role == Client && p in m.room.clients
    && m.peers[p].ready && !m.peers[p].waiting && !Lost(m.peers[p])
  }

  /** The host event a step appends to the history, if any. */
  function HostEvent(s: State, step: Step): seq<string> {
    if step.DoBroadcast? && step.msg.typ == Encrypted && IsServer(s.mem, step.p) && step.msg.eventID != ""
       && IsNew(Bind(s.mem.room, step.msg.sessionID, step.msg.epoch, false).history, step.msg.eventID)
    then [step.msg.eventID] else []
  }

  /** The client stays resumed and was queued exactly `ids`, or it was lost. */
  predicate Keeps(m: Memory, m': Memory, p: PeerId, ids: seq<string>)
    requires p in m.peers
  {
    p in m'.peers && Follows(m.peers[p], m'.peers[p], ids) && (Following(m', p) || Lost(m'.peers[p]))
  }

  lemma SendKeeps(m: Memory, targets: set<PeerId>, raw: Raw, p: PeerId)
    requires p in m.peers
    ensures Follows(m.peers[p], SendAll(m.peers, targets, raw)[p],
                    if p in targets && IsEvent(raw) then [raw.msg.eventID] else [])
  {
    EnqueueFollows(m.peers[p], raw);
  }

  lemma BroadcastFollows(m: Memory, p: PeerId, c: PeerId, msg: Message)
    requires Following(m, c) && msg.typ == Encrypted && IsServer(m, p)
    ensures var r := Bind(m.room, msg.sessionID, msg.epoch, false);
            Keeps(m, Broadcast(m, p, msg), c,
                  if msg.eventID != "" && IsNew(r.history, msg.eventID) then [msg.eventID] else [])
  {
    var r := Bind(m.room, msg.sessionID, msg.epoch, false);
    SendKeeps(m, Targets(m, msg.eventID), Json(Stamp(msg, r)), c);
    assert c in Targets(m, msg.eventID);
  }

  lemma ActivateFollows(m: Memory, p: PeerId, c: PeerId, msg: Message, meta: Meta, replace: bool)
    requires Following(m, c) && msg.typ == ActiveSession
    ensures Keeps(m, Activate(m, p, msg, meta, replace), c, [])
  {
    if msg.sessionID != "" && IsServer(m, p) {
      var r := Bind(m.room.(meta := Overlay(m.room.meta, meta)), msg.sessionID, msg.epoch, replace);
      SendKeeps(m, r.clients, Json(msg.(generation := 0, epoch := r.epoch)), c);
    }
  }

  lemma NotifyFollows(m: Memory, c: PeerId)
    requires c in m.peers
    ensures c in NotifyServer(m).peers && Follows(m.peers[c], NotifyServer(m).peers[c], [])
    ensures var q := NotifyServer(m).peers[c];
            q.role == m.peers[c].role && q.ready == m.peers[c].ready && q.waiting == m.peers[c].waiting
            && q.cursor == m.peers[c].cursor
  {
    if m.room.server == Some(c) {
      var r := m.room.(epoch := AtLeastOne(m.room.epoch));
      var note := Notice(Connected, r.sessionID, r.epoch).(count := |r.history|, lastEventID := Tail(r.history));
      EnqueueFollows(m.peers[c], Json(note));
    }
  }

  lemma SendToFollows(m: Memory, q: PeerId, raw: Raw, c: PeerId)
    requires c in m.peers && (q == c ==> !IsEvent(raw))
    ensures c in SendTo(m.peers, q, raw) && Follows(m.peers[c], SendTo(m.peers, q, raw)[c], [])
  {
    EnqueueFollows(m.peers[c], raw);
  }

  lemma ServerJoinFollows(m: Memory, p: PeerId, c: PeerId, id: string)
    requires Following(m, c) && Attached(m)
    ensures Keeps(m, JoinServer(m, p, id), c, [])
  {
    if m.room.server.Some? {
      SendToFollows(m, m.room.server.value, Json(Notice(SharingStopped, "", 0)), c);
    }
  }

  lemma ClientSendFollows(m: Memory, p: PeerId, c: PeerId, raw: Raw)
    requires Following(m, c) && Attached(m)
    ensures Keeps(m, ClientSend(m, p, raw), c, [])
  {
    if m.room.server.Some? {
      SendToFollows(m, m.room.server.value, raw, c);
    }
  }

  lemma ExpireFollows(m: Memory, c: PeerId)
    requires Following(m, c)
    ensures Keeps(m, Expire(m), c, [])
  {
    SendKeeps(m, m.room.clients, Json(Notice(SharingStopped, "", 0)), c);
  }

  lemma ServerDetachFollows(m: Memory, p: PeerId, c: PeerId, d: bool)
    requires Following(m, c)
    ensures Keeps(m, ServerDetached(m, p, d), c, [])
  {
    SendKeeps(m, m.room.clients, Json(Notice(ServerOffline, m.room.sessionID, 0)), c);
  }

  lemma ClientDetachFollows(m: Memory, p: PeerId, c: PeerId)
    requires Following(m, c) && p in m.peers && p != c
    ensures Keeps(m, ClientDetached(m, p), c, [])
  {
  }

  lemma DetachFollows(m: Memory, p: PeerId, c: PeerId, d: bool)
    requires Following(m, c)
    ensures Keeps(m, Detach(m, p, d), c, [])
  {
    if p in m.peers && p != c {
      ServerDetachFollows(m, p, c, d);
      ClientDetachFollows(m, p, c);
    }
  }

  lemma StopFollows(m: Memory, p: PeerId, c: PeerId)
    requires Following(m, c) && Attached(m)
    ensures Keeps(m, StopSharing(m, p), c, [])
  {
    if IsServer(m, p) {
      SendKeeps(m, m.room.clients, Json(Notice(SharingStopped, "", 0)), c);
    }
  }

  lemma JoinClientFollows(m: Memory, p: PeerId, c: PeerId, id: string)
    requires Following(m, c)
    ensures Keeps(m, JoinClient(m, p, id), c, [])
  {
    if p != c {
      var r := m.room.(clients := m.room.clients + {p});
      NotifyFollows(m.(room := r, peers := m.peers[p := NewPeer(Client, id)]), c);
    }
  }

  lemma ResumeFollows(m: Memory, p: PeerId, c: PeerId, msg: Message, loaded: string)
    requires Following(m, c) && p != c
    ensures Keeps(m, Resume(m, p, msg, loaded), c, [])
  {
  }

  lemma KeyReadyFollows(m: Memory, p: PeerId, c: PeerId, id: string, drains: seq<nat>)
    requires Following(m, c)
    ensures Keeps(m, KeyReady(m, p, id, drains), c, [])
  {
    if CanFinish(m, p, id) {
      var r := m.room.(epoch := AtLeastOne(m.room.epoch));
      var q := Replay(Acknowledged(m, p), After(r.history, m.peers[p].cursor), drains);
      NotifyFollows(m.(room := r, peers := m.peers[p := q]), c);
    }
  }

  lemma WriterFollows(m: Memory, q: PeerId, c: PeerId, msg: Message)
    requires Following(m, c)
    ensures Keeps(m, Drain(m, q), c, []) && Keeps(m, Control(m, q, msg), c, [])
  {
    DrainedFollows(m.peers[c], 1);
    EnqueueFollows(m.peers[c], Json(msg));
  }

  lemma BroadcastStepFollows(s: State, p: PeerId, msg: Message, c: PeerId)
    requires Following(s.mem, c)
    ensures Keeps(s.mem, Apply(s, DoBroadcast(p, msg)).mem, c, HostEvent(s, DoBroadcast(p, msg)))
  {
    if msg.typ == Encrypted && IsServer(s.mem, p) { BroadcastFollows(s.mem, p, c, msg); }
  }

  lemma HostStepFollows(s: State, step: Step, c: PeerId)
    requires Following(s.mem, c) && Attached(s.mem) && ByHost(step)
    ensures Keeps(s.mem, Apply(s, step).mem, c, HostEvent(s, step))
  {
    if step.DoBroadcast? {
      BroadcastStepFollows(s, step.p, step.msg, c);
    } else {
      match step
      case DoJoinServer(p, id) => ServerJoinFollows(s.mem, p, c, id);
      case DoActivate(p, msg, sid, meta, replace) =>
        if msg.typ == ActiveSession { ActivateFollows(s.mem, p, c, Named(msg, sid), meta, replace); }
      case DoServerReady(p) =>
      case DoStopSharing(p) => StopFollows(s.mem, p, c);
    }
  }

  lemma AckFollows(m: Memory, p: PeerId, c: PeerId, id: string)
    requires Following(m, c)
    ensures Keeps(m, Ack(m, p, id), c, []) && Keeps(m, Admit(m, p), c, [])
  {
  }

  lemma ResumeStepFollows(s: State, step: Step, c: PeerId)
    requires Following(s.mem, c) && (step.DoResume? || step.DoKeyReady?)
    requires !(step.DoResume? && step.p == c)
    ensures Keeps(s.mem, Apply(s, step).mem, c, [])
  {
    match step
    case DoResume(p, msg, loads) => ResumeFollows(s.mem, p, c, msg, LoadsCursor(s, p, msg.clientID, loads));
    case DoKeyReady(p, id, drains) => KeyReadyFollows(s.mem, p, c, id, drains);
  }

  lemma ClientStepFollows(s: State, step: Step, c: PeerId)
    requires Following(s.mem, c) && Attached(s.mem) && ByClient(step)
    requires !(step.DoResume? && step.p == c)
    ensures Keeps(s.mem, Apply(s, step).mem, c, [])
  {
    if step.DoResume? || step.DoKeyReady? {
      ResumeStepFollows(s, step, c);
    } else {
      match step
      case DoAdmit(p) => AckFollows(s.mem, p, c, "");
      case DoJoinClient(p, id) => JoinClientFollows(s.mem, p, c, id);
      case DoClientSend(p, raw) => if raw.msg.typ == Encrypted { ClientSendFollows(s.mem, p, c, raw); }
      case DoAck(p, id) => AckFollows(s.mem, p, c, id);
    }
  }

  lemma OtherStepFollows(s: State, step: Step, c: PeerId)
    requires Following(s.mem, c) && Attached(s.mem) && !ByHost(step) && !ByClient(step)
    ensures Keeps(s.mem, Apply(s, step).mem, c, [])
  {
    match step
    case DoDetach(p, d) => DetachFollows(s.mem, p, c, d);
    case DoExpire => ExpireFollows(s.mem, c);
    case DoControl(q, msg) => WriterFollows(s.mem, q, c, msg);
    case DoDrain(q) => WriterFollows(s.mem, q, c, Notice(Connected, "", 0));
    case DoTask(i, commits, _) => if i < |s.mem.tasks| && !commits { FailureFollows(s.mem, i, c); }
    case _ =>
  }

  lemma FailureFollows(m: Memory, i: nat, c: PeerId)
    requires Following(m, c) && i < |m.tasks|
    ensures Keeps(m, TaskFailed(m, i), c, [])
  {
  }

  /** Every step other than the client's own resume queues exactly the host event it appends, if any. */
  lemma StepFollows(s: State, step: Step, c: PeerId)
    requires Following(s.mem, c) && Attached(s.mem)
    requires !(step.DoResume? && step.p == c)
    ensures Keeps(s.mem, Apply(s, step).mem, c, HostEvent(s, step))
  {
    if ByHost(step) {
      HostStepFollows(s, step, c);
    } else if ByClient(step) {
      ClientStepFollows(s, step, c);
    } else {
      OtherStepFollows(s, step, c);
    }
  }

  // ---- Whole runs ----

  /** The host events appended during a run, in order. */
  function HostEvents(s: State, steps: seq<Step>): seq<string> {
    if steps == [] then []
    else
      var before := steps[..|steps| - 1];
      HostEvents(s, before) + HostEvent(Run(s, before), steps[|steps| - 1])
  }

  lemma {:induction false} RunFollows(s: State, steps: seq<Step>, c: PeerId)
    requires Following(s.mem, c) && Attached(s.mem) && NoResume(steps, c)
    ensures Attached(Run(s, steps).mem)
    ensures Keeps(s.mem, Run(s, steps).mem, c, HostEvents(s, steps))
  {
    if steps != [] {
      var before, step := steps[..|steps| - 1], steps[|steps| - 1];
      RunFollows(s, before, c);
      var u := Run(s, before);
      FineStep(u, step);
      if !Lost(u.mem.peers[c]) {
        StepFollows(u, step, c);
        FollowsTrans(s.mem.peers[c], u.mem.peers[c], Apply(u, step).mem.peers[c],
                     HostEvents(s, before), HostEvent(u, step));
      }
    }
  }

  /** What finishing a resume queues: a prefix of the backlog after the client's cursor. */
  lemma KeyReadyQueuesBacklog(m: Memory, c: PeerId, id: string, drains: seq<nat>)
    requires CanFinish(m, c, id) && Attached(m) && FaithfulHistory(m.room.history)
    ensures var backlog := After(m.room.history, m.peers[c].cursor);
            Keeps(m, KeyReady(m, c, id, drains), c, Ids(backlog)[..Sent(Acknowledged(m, c), backlog, drains)])
  {
    var r := m.room.(epoch := AtLeastOne(m.room.epoch));
    var backlog := After(r.history, m.peers[c].cursor);
    var q0 := m.peers[c].(ready := true, waiting := false);
    var q1 := Acknowledged(m, c);
    var q2 := Replay(q1, backlog, drains);
    var ids := Ids(backlog)[..Sent(q1, backlog, drains)];
    EnqueueFollows(q0, Json(ResumeNotice(r, q0.clientID, q0.cursor)));
    assert Follows(m.peers[c], q1, []);
    ReplayFollows(q1, backlog, drains);
    ReplayAges(q1, backlog, drains);
    FollowsTrans(m.peers[c], q1, q2, [], ids);
    var m' := m.(room := r, peers := m.peers[c := q2]);
    NotifyFollows(m', c);
    FollowsTrans(m.peers[c], q2, NotifyServer(m').peers[c], [] + ids, []);
    assert [] + ids + [] == ids;
  }

  /** In every reachable state and after every continuation in which the client does not resume again:
      unless the connection was lost, it has been queued exactly the replayed part of the history
      after its cursor followed by every host event appended since, in history order, none missing
      and none repeated at the switch from replay to live. */
  lemma ResumeIsGapFree(
    key: Key, store: Tables, past: seq<Step>, c: PeerId, id: string, drains: seq<nat>, steps: seq<Step>)
    requires FaithfulStore(store)
    requires CanFinish(Run(Init(key, store), past).mem, c, id) && NoResume(steps, c)
    requires !Lost(Run(Init(key, store), past).mem.peers[c])
    ensures var s := Run(Init(key, store), past);
            var s0 := Apply(s, DoKeyReady(c, id, drains));
            var t := Run(s0, steps);
            var backlog := After(s.mem.room.history, s.mem.peers[c].cursor);
            var sent := Sent(Acknowledged(s.mem, c), backlog, drains);
            && c in t.mem.peers
            && (Lost(t.mem.peers[c]) ||
                Delivered(Stream(t.mem.peers[c])) ==
                Delivered(Stream(s.mem.peers[c])) + (Ids(backlog)[..sent] + HostEvents(s0, steps)))
  {
    var s := Run(Init(key, store), past);
    WFAlways(key, store, past);
    KeyReadyQueuesBacklog(s.mem, c, id, drains);
    var s0 := Apply(s, DoKeyReady(c, id, drains));
    FineStep(s, DoKeyReady(c, id, drains));
    var ids := Ids(After(s.mem.room.history, s.mem.peers[c].cursor))
               [..Sent(Acknowledged(s.mem, c), After(s.mem.room.history, s.mem.peers[c].cursor), drains)];
    if Lost(s0.mem.peers[c]) {
      LostForever(s0, steps, c);
    } else {
      RunFollows(s0, steps, c);
      FollowsTrans(s.mem.peers[c], s0.mem.peers[c], Run(s0, steps).mem.peers[c], ids, HostEvents(s0, steps));
    }
  }

  lemma {:induction false} LostForever(s: State, steps: seq<Step>, c: PeerId)
    requires c in s.mem.peers && Lost(s.mem.peers[c])
    ensures c in Run(s, steps).mem.peers && Lost(Run(s, steps).mem.peers[c])
  {
    if steps != [] {
      LostForever(s, steps[..|steps| - 1], c);
      FineStep(Run(s, steps[..|steps| - 1]), steps[|steps| - 1]);
    }
  }

  // ---- How the history itself grows ----

  /** The step replaces the history rather than extending it. */
  predicate Clears(s: State, step: Step) {
    match step
    case DoBroadcast(p, msg) => Rebinds(s.mem.room, msg.sessionID, msg.epoch, false)
    case DoActivate(p, msg, sid, _, replace) => Rebinds(s.mem.room, Named(msg, sid).sessionID, msg.epoch, replace)
    case DoHydrate(_) => s.mem.room.sessionID == ""
    case DoCrash => true
    case _ => false
  }

  /** The client event a step appends to the history, if any. */
  function ClientEvent(s: State, step: Step): seq<string> {
    if step.DoClientSend? && step.raw.msg.typ == Encrypted && Running(s.mem, step.p, Client)
       && step.raw.msg.eventID != "" && IsNew(s.mem.room.history, step.raw.msg.eventID)
    then [step.raw.msg.eventID] else []
  }

  datatype Arrival = Arrival(id: string, host: bool)

  function Arrives(s: State, step: Step): seq<Arrival> {
    if HostEvent(s, step) != [] then [Arrival(HostEvent(s, step)[0], true)]
    else if ClientEvent(s, step) != [] then [Arrival(ClientEvent(s, step)[0], false)]
    else []
  }

  /** Everything appended to the history during a run, in order, with where it came from. */
  function Arrivals(s: State, steps: seq<Step>): seq<Arrival> {
    if steps == [] then []
    else Arrivals(s, steps[..|steps| - 1]) + Arrives(Run(s, steps[..|steps| - 1]), steps[|steps| - 1])
  }

  function ArrivalIds(a: seq<Arrival>): seq<string> {
    if a == [] then [] else ArrivalIds(a[..|a| - 1]) + [a[|a| - 1].id]
  }

  function FromHost(a: seq<Arrival>): seq<string> {
    if a == [] then [] else FromHost(a[..|a| - 1]) + (if a[|a| - 1].host then [a[|a| - 1].id] else [])
  }

  lemma ArrivalsConcat(a: seq<Arrival>, b: seq<Arrival>)
    requires |b| <= 1
    ensures ArrivalIds(a + b) == ArrivalIds(a) + (if b == [] then [] else [b[0].id])
    ensures FromHost(a + b) == FromHost(a) + (if b != [] && b[0].host then [b[0].id] else [])
  {
    if b == [] {
      assert a + b == a;
    } else {
      assert (a + b)[..|a + b| - 1] == a;
    }
  }

  predicate NeverClears(s: State, steps: seq<Step>) {
    steps == [] || (NeverClears(s, steps[..|steps| - 1]) && !Clears(Run(s, steps[..|steps| - 1]), steps[|steps| - 1]))
  }

  predicate NoClientEvents(s: State, steps: seq<Step>) {
    steps == [] || (NoClientEvents(s, steps[..|steps| - 1])
                    && ClientEvent(Run(s, steps[..|steps| - 1]), steps[|steps| - 1]) == [])
  }

  lemma AppendGrowsIds(h: seq<RoomEvent>, ev: RoomEvent)
    ensures Ids(Append(h, ev)) ==
            Ids(h) + (if ev.eventID != "" && IsNew(h, ev.eventID) then [ev.eventID] else [])
  {
    AppendEffect(h, ev);
  }

  lemma BindKeepsHistory(r: Room, sid: string, epoch: nat)
    requires !Rebinds(r, sid, epoch, false)
    ensures Bind(r, sid, epoch, false).history == r.history
  {
  }

  lemma BroadcastAppends(m: Memory, p: PeerId, msg: Message)
    requires IsServer(m, p) && !Rebinds(m.room, msg.sessionID, msg.epoch, false)
    ensures var b := Bind(m.room, msg.sessionID, msg.epoch, false);
            Broadcast(m, p, msg).room.history == Append(m.room.history, EventOf(Json(Stamp(msg, b)), Encrypted))
  {
    BindKeepsHistory(m.room, msg.sessionID, msg.epoch);
  }

  lemma BroadcastGrowsHistory(m: Memory, p: PeerId, msg: Message)
    requires IsServer(m, p) && !Rebinds(m.room, msg.sessionID, msg.epoch, false)
    ensures Ids(Broadcast(m, p, msg).room.history) == Ids(m.room.history) +
            (if msg.eventID != "" && IsNew(m.room.history, msg.eventID) then [msg.eventID] else [])
  {
    BroadcastAppends(m, p, msg);
    var ev := EventOf(Json(Stamp(msg, Bind(m.room, msg.sessionID, msg.epoch, false))), Encrypted);
    assert ev.eventID == msg.eventID;
    AppendGrowsIds(m.room.history, ev);
  }

  lemma ClientSendGrowsHistory(m: Memory, p: PeerId, raw: Raw)
    requires Running(m, p, Client)
    ensures Ids(ClientSend(m, p, raw).room.history) == Ids(m.room.history) +
            (if raw.msg.eventID != "" && IsNew(m.room.history, raw.msg.eventID) then [raw.msg.eventID] else [])
  {
    AppendGrowsIds(m.room.history, EventOf(raw, ClientEncrypted));
  }

  lemma ActivateKeepsHistory(m: Memory, p: PeerId, msg: Message, meta: Meta, replace: bool)
    requires !Rebinds(m.room, msg.sessionID, msg.epoch, replace)
    ensures Activate(m, p, msg, meta, replace).room.history == m.room.history
  {
  }

  lemma EventStepGrowsHistory(s: State, step: Step)
    requires !Clears(s, step) && (step.DoBroadcast? || step.DoClientSend?)
    ensures Ids(Apply(s, step).mem.room.history) ==
            Ids(s.mem.room.history) + HostEvent(s, step) + ClientEvent(s, step)
  {
    match step
    case DoBroadcast(p, msg) => if IsServer(s.mem, p) { BroadcastGrowsHistory(s.mem, p, msg); }
    case DoClientSend(p, raw) => if Running(s.mem, p, Client) { ClientSendGrowsHistory(s.mem, p, raw); }
  }

  lemma StepGrowsHistory(s: State, step: Step)
    requires !Clears(s, step)
    ensures Ids(Apply(s, step).mem.room.history) ==
            Ids(s.mem.room.history) + HostEvent(s, step) + ClientEvent(s, step)
  {
    if step.DoBroadcast? || step.DoClientSend? {
      EventStepGrowsHistory(s, step);
    } else {
      assert Apply(s, step).mem.room.history == s.mem.room.history by {
        match step
        case DoActivate(p, msg, sid, meta, replace) =>
          ActivateKeepsHistory(s.mem, p, Named(msg, sid), meta, replace);
        case DoHydrate(_) =>
        case _ => QuietStep(s, step);
      }
      assert HostEvent(s, step) == [] && ClientEvent(s, step) == [];
    }
  }

  lemma ArrivesOne(s: State, step: Step)
    ensures var a := Arrives(s, step);
            && |a| <= 1
            && HostEvent(s, step) + ClientEvent(s, step) == (if a == [] then [] else [a[0].id])
            && HostEvent(s, step) == (if a != [] && a[0].host then [a[0].id] else [])
  {
    assert HostEvent(s, step) == [] || ClientEvent(s, step) == [];
  }

  /** The events a following client is queued are the host's among the arrivals, in the same order. */
  lemma {:induction false} HostEventsArrive(s: State, steps: seq<Step>)
    ensures HostEvents(s, steps) == FromHost(Arrivals(s, steps))
    ensures NoClientEvents(s, steps) ==> ArrivalIds(Arrivals(s, steps)) == HostEvents(s, steps)
  {
    if steps != [] {
      var before, step := steps[..|steps| - 1], steps[|steps| - 1];
      HostEventsArrive(s, before);
      ArrivesOne(Run(s, before), step);
      ArrivalsConcat(Arrivals(s, before), Arrives(Run(s, before), step));
    }
  }

  lemma StepGrowsByArrivals(s: State, step: Step)
    requires !Clears(s, step)
    ensures |Arrives(s, step)| <= 1
    ensures Ids(Apply(s, step).mem.room.history) == Ids(s.mem.room.history) + ArrivalIds(Arrives(s, step))
  {
    var h, e, c := Ids(s.mem.room.history), HostEvent(s, step), ClientEvent(s, step);
    StepGrowsHistory(s, step);
    ArrivesOne(s, step);
    OneArrival(Arrives(s, step));
    assert h + e + c == h + (e + c);
  }

  lemma OneArrival(a: seq<Arrival>)
    requires |a| <= 1
    ensures ArrivalIds(a) == if a == [] then [] else [a[0].id]
  {
    if a != [] { assert a[..0] == []; }
  }

  lemma GrowthChains(h0: seq<string>, h1: seq<string>, h2: seq<string>, a: seq<Arrival>, b: seq<Arrival>)
    requires |b| <= 1 && h1 == h0 + ArrivalIds(a) && h2 == h1 + ArrivalIds(b)
    ensures h2 == h0 + ArrivalIds(a + b)
  {
    ArrivalsConcat(a, b);
    assert b != [] ==> b[..|b| - 1] == [];
    assert h0 + ArrivalIds(a) + ArrivalIds(b) == h0 + (ArrivalIds(a) + ArrivalIds(b));
  }

  /** While it is not replaced, the history grows by exactly the arrivals. */
  lemma {:induction false} RunGrowsHistory(s: State, steps: seq<Step>)
    requires NeverClears(s, steps)
    ensures Ids(Run(s, steps).mem.room.history) == Ids(s.mem.room.history) + ArrivalIds(Arrivals(s, steps))
  {
    if steps != [] {
      var before, step := steps[..|steps| - 1], steps[|steps| - 1];
      var u := Run(s, before);
      RunGrowsHistory(s, before);
      StepGrowsByArrivals(u, step);
      GrowthChains(Ids(s.mem.room.history), Ids(u.mem.room.history), Ids(Apply(u, step).mem.room.history),
                   Arrivals(s, before), Arrives(u, step));
    }
  }

  /** While only the host adds events, the history after a resume grows by exactly the host's events. */
  lemma HostGrowsHistory(s: State, c: PeerId, id: string, drains: seq<nat>, steps: seq<Step>)
    requires var s0 := Apply(s, DoKeyReady(c, id, drains)); NeverClears(s0, steps) && NoClientEvents(s0, steps)
    ensures var s0 := Apply(s, DoKeyReady(c, id, drains));
            Ids(Run(s0, steps).mem.room.history) == Ids(s.mem.room.history) + HostEvents(s0, steps)
  {
    var s0 := Apply(s, DoKeyReady(c, id, drains));
    QuietStep(s, DoKeyReady(c, id, drains));
    RunGrowsHistory(s0, steps);
    HostEventsArrive(s0, steps);
  }

  /** While only the host adds events and the history is not replaced, a client that resumed and was not
      lost holds, at every moment, exactly the room's history from where its replay started; for a cursor
      the history knew, or none, that is the history after the cursor. */
  lemma FollowingClientIsCurrent(
    key: Key, store: Tables, past: seq<Step>, c: PeerId, id: string, drains: seq<nat>, steps: seq<Step>)
    requires FaithfulStore(store)
    requires CanFinish(Run(Init(key, store), past).mem, c, id) && NoResume(steps, c)
    requires var s := Run(Init(key, store), past);
             var q := s.mem.peers[c]; var h := s.mem.room.history;
             !Lost(q) && |Acknowledged(s.mem, c).queue| + |After(h, q.cursor)| <= SEND_CAPACITY - REPLAY_HEADROOM
    requires var s0 := Apply(Run(Init(key, store), past), DoKeyReady(c, id, drains));
             NeverClears(s0, steps) && NoClientEvents(s0, steps)
    ensures var s := Run(Init(key, store), past);
            var t := Run(Apply(s, DoKeyReady(c, id, drains)), steps);
            var h := s.mem.room.history; var g := t.mem.room.history; var cursor := s.mem.peers[c].cursor;
            && c in t.mem.peers && |h| <= |g|
            && (Lost(t.mem.peers[c]) ||
                Delivered(Stream(t.mem.peers[c])) ==
                Delivered(Stream(s.mem.peers[c])) + Ids(g[AfterStart(h, cursor)..]))
            && (cursor == "" || cursor in Ids(h) ==> g[AfterStart(h, cursor)..] == After(g, cursor))
  {
    var s := Run(Init(key, store), past);
    var step := DoKeyReady(c, id, drains);
    var s0 := Apply(s, step);
    var t := Run(s0, steps);
    var cursor, h, g := s.mem.peers[c].cursor, s.mem.room.history, t.mem.room.history;
    ResumeIsGapFree(key, store, past, c, id, drains, steps);
    ReplayHeadroom(Acknowledged(s.mem, c), After(h, cursor), drains);
    HostGrowsHistory(s, c, id, drains, steps);
    CurrentIds(h, g, cursor, HostEvents(s0, steps));
    assert Ids(After(h, cursor))[..|After(h, cursor)|] == Ids(After(h, cursor));
  }

  lemma CurrentIds(h: seq<RoomEvent>, g: seq<RoomEvent>, cursor: string, added: seq<string>)
    requires Ids(g) == Ids(h) + added
    ensures |h| <= |g| && Ids(After(h, cursor)) + added == Ids(g[AfterStart(h, cursor)..])
    ensures cursor == "" || cursor in Ids(h) ==> AfterStart(g, cursor) == AfterStart(h, cursor)
  {
    assert |g| == |Ids(g)| && |h| == |Ids(h)|;
    if cursor == "" || cursor in Ids(h) { AfterStartGrows(h, g, cursor); }
    var k := AfterStart(h, cursor);
    IdsDrop(h, k);
    IdsDrop(g, k);
    assert (Ids(h) + added)[k..] == Ids(h)[k..] + added;
  }

  lemma IdsDrop(h: seq<RoomEvent>, k: nat)
    requires k <= |h|
    ensures Ids(h[k..]) == Ids(h)[k..]
  {
  }
}
