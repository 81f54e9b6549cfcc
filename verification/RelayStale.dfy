/** Replaced connections are inert. */
module RelayStale {
  import opened Messages
  import opened History
  import opened Store
  import opened Relay
  import opened RelayMachine
  import opened RelayPeers

  // ---- Displaced hosts ----

  /** The connection exists and does not hold the room. */
  predicate Displaced(m: Memory, p: PeerId) {
    p in m.peers && m.peers[p].role == Server && m.room.server != Some(p)
  }

  /** What a host connection can ask of the room, including leaving it. */
  predicate HostRequest(step: Step, p: PeerId) {
    || (step.DoBroadcast? && step.p == p)
    || (step.DoActivate? && step.p == p)
    || (step.DoServerReady? && step.p == p)
    || (step.DoStopSharing? && step.p == p)
    || (step.DoDetach? && step.p == p)
  }

  /** A displaced host's request changes nothing at all. */
  lemma StaleRequestIgnored(s: State, step: Step, p: PeerId)
    requires Displaced(s.mem, p) && HostRequest(step, p)
    ensures Apply(s, step) == s
  {
  }

  lemma ServerOnlyByJoining(m: Memory, m': Memory, p: PeerId)
    requires Displaced(m, p) && Grows(m.peers, m'.peers) && NoReturn(m, m')
    ensures Displaced(m', p)
  {
  }

  /** No step gives the room back to a connection it was taken from. */
  lemma StaysDisplaced(s: State, step: Step, p: PeerId)
    requires Displaced(s.mem, p)
    ensures Displaced(Apply(s, step).mem, p)
  {
    FineStep(s, step);
    ServerAfter(s, step);
    ServerOnlyByJoining(s.mem, Apply(s, step).mem, p);
  }

  /** The room's server after a handler is the one before, none, or a connection not seen before. */
  predicate NoReturn(m: Memory, m': Memory) {
    || m'.room.server == m.room.server || m'.room.server == None
    || (m'.room.server.Some? && m'.room.server.value !in m.peers)
  }

  lemma ServerAfterClient(s: State, step: Step)
    requires ByClient(step)
    ensures Apply(s, step).mem.room.server == s.mem.room.server
  {
    match step
    case DoKeyReady(p, id, drains) => ServerAfterKeyReady(s.mem, p, id, drains);
    case _ =>
  }

  lemma ServerAfterKeyReady(m: Memory, p: PeerId, id: string, drains: seq<nat>)
    ensures KeyReady(m, p, id, drains).room.server == m.room.server
  {
  }

  lemma ServerAfterHost(s: State, step: Step)
    requires ByHost(step)
    ensures NoReturn(s.mem, Apply(s, step).mem)
  {
    match step
    case DoBroadcast(p, msg) => ServerAfterEvent(s.mem, p, msg);
    case DoActivate(p, msg, sid, meta, replace) => ServerAfterActivation(s.mem, p, Named(msg, sid), meta, replace);
    case _ =>
  }

  lemma ServerAfterEvent(m: Memory, p: PeerId, msg: Message)
    ensures Broadcast(m, p, msg).room.server == m.room.server
  {
  }

  lemma ServerAfterActivation(m: Memory, p: PeerId, msg: Message, meta: Meta, replace: bool)
    ensures Activate(m, p, msg, meta, replace).room.server == m.room.server
  {
  }

  lemma ServerAfter(s: State, step: Step)
    ensures NoReturn(s.mem, Apply(s, step).mem)
  {
    if ByClient(step) {
      ServerAfterClient(s, step);
    } else if ByHost(step) {
      ServerAfterHost(s, step);
    } else if step.DoDetach? {
      ServerAfterDetach(s.mem, step.p, step.roomDestroyed);
    }
  }

  lemma ServerAfterDetach(m: Memory, p: PeerId, d: bool)
    ensures NoReturn(m, Detach(m, p, d))
  {
  }

  /** The run without the requests of one host connection. */
  function Erased(steps: seq<Step>, p: PeerId): seq<Step> {
    if steps == [] then []
    else
      var before, step := steps[..|steps| - 1], steps[|steps| - 1];
      if HostRequest(step, p) then Erased(before, p) else Erased(before, p) + [step]
  }

  /** Once another host holds the room, every request of the displaced one can be deleted from any run
      without changing the room, the other connections, the tasks, the store or the hub. */
  lemma {:induction false} DisplacedHostIsInert(s: State, steps: seq<Step>, p: PeerId)
    requires Displaced(s.mem, p)
    ensures Displaced(Run(s, steps).mem, p)
    ensures Run(s, Erased(steps, p)) == Run(s, steps)
  {
    if steps != [] {
      var before, step := steps[..|steps| - 1], steps[|steps| - 1];
      DisplacedHostIsInert(s, before, p);
      StaysDisplaced(Run(s, before), step, p);
      if HostRequest(step, p) {
        StaleRequestIgnored(Run(s, before), step, p);
      } else {
        var e := Erased(before, p) + [step];
        assert e[..|e| - 1] == Erased(before, p);
      }
    }
  }

  // ---- Superseded clients ----

  /** The connection last resumed under an id that it no longer holds. */
  predicate SupersededClient(m: Memory, p: PeerId) {
    p in m.peers && m.peers[p].role == Client && !HoldsID(m, p)
  }

  /** Its acknowledgements are dropped: no cursor moves and no cursor write starts. */
  lemma StaleAckIgnored(s: State, p: PeerId, eventID: string)
    requires SupersededClient(s.mem, p)
    ensures Apply(s, DoAck(p, eventID)) == s
  {
  }

  /** Its leaving keeps the holder of every client id and every other connection as they were. */
  lemma StaleDetachKeepsHolders(s: State, p: PeerId, d: bool)
    requires SupersededClient(s.mem, p)
    ensures var m' := Apply(s, DoDetach(p, d)).mem;
            m'.room.byID == s.mem.room.byID && m'.peers == s.mem.peers && m'.room.history == s.mem.room.history
  {
  }

  predicate SameNames(before: map<PeerId, Peer>, after: map<PeerId, Peer>) {
    forall q :: q in before && q in after ==> after[q].clientID == before[q].clientID
  }

  /** Connections keep their client ids, and no client id gets a holder it did not have. */
  predicate SameHolders(m: Memory, m': Memory) {
    && SameNames(m.peers, m'.peers)
    && forall c :: c in m'.room.byID ==> c in m.room.byID && m'.room.byID[c] == m.room.byID[c]
  }

  lemma KeyReadyHolders(m: Memory, p: PeerId, id: string, drains: seq<nat>)
    ensures SameHolders(m, KeyReady(m, p, id, drains))
  {
    if CanFinish(m, p, id) {
      var r := m.room.(epoch := AtLeastOne(m.room.epoch));
      var q := Replay(Acknowledged(m, p), After(r.history, m.peers[p].cursor), drains);
      ReplayAges(Acknowledged(m, p), After(r.history, m.peers[p].cursor), drains);
      var m' := m.(room := r, peers := m.peers[p := q]);
      assert SameHolders(m, m');
      NotifyHolders(m');
    }
  }

  lemma NotifyHolders(m: Memory)
    ensures SameHolders(m, NotifyServer(m))
  {
  }

  lemma DetachHolders(m: Memory, p: PeerId, d: bool)
    ensures SameHolders(m, Detach(m, p, d))
  {
  }

  lemma BroadcastHolders(m: Memory, p: PeerId, msg: Message)
    ensures SameHolders(m, Broadcast(m, p, msg))
  {
  }

  lemma ActivateHolders(m: Memory, p: PeerId, msg: Message, meta: Meta, replace: bool)
    ensures SameHolders(m, Activate(m, p, msg, meta, replace))
  {
  }

  lemma ServerJoinHolders(m: Memory, p: PeerId, id: string)
    ensures SameHolders(m, JoinServer(m, p, id))
  {
  }

  lemma ClientJoinHolders(m: Memory, p: PeerId, id: string)
    ensures SameHolders(m, JoinClient(m, p, id))
  {
  }

  lemma ClientHolders(m: Memory, p: PeerId, raw: Raw, id: string)
    ensures SameHolders(m, ClientSend(m, p, raw)) && SameHolders(m, Ack(m, p, id))
  {
  }

  lemma StopHolders(m: Memory, p: PeerId)
    ensures SameHolders(m, StopSharing(m, p))
  {
    var stop := Json(Notice(SharingStopped, "", 0));
    assert SameNames(m.peers, SendAll(m.peers, m.room.clients, stop));
  }

  lemma OtherHolders(m: Memory, q: PeerId, msg: Message)
    ensures SameHolders(m, Hangup(m, q)) && SameHolders(m, Control(m, q, msg)) && SameHolders(m, Drain(m, q))
  {
  }

  lemma FailureHolders(m: Memory, i: nat)
    requires i < |m.tasks|
    ensures SameHolders(m, TaskFailed(m, i))
  {
  }

  lemma ExpireHolders(m: Memory)
    ensures SameHolders(m, Expire(m))
  {
  }

  lemma HoldersAfterHost(s: State, step: Step)
    requires ByHost(step)
    ensures SameHolders(s.mem, Apply(s, step).mem)
  {
    match step
    case DoBroadcast(p, msg) =>
      if msg.typ == Encrypted { BroadcastHolders(s.mem, p, msg); }
    case DoActivate(p, msg, sid, meta, replace) =>
      if msg.typ == ActiveSession { ActivateHolders(s.mem, p, Named(msg, sid), meta, replace); }
    case DoJoinServer(p, id) => ServerJoinHolders(s.mem, p, id);
    case DoStopSharing(p) => StopHolders(s.mem, p);
    case DoServerReady(p) =>
  }

  lemma HoldersAfterClient(s: State, step: Step)
    requires ByClient(step) && !step.DoResume?
    ensures SameHolders(s.mem, Apply(s, step).mem)
  {
    match step
    case DoKeyReady(q, id, drains) => KeyReadyHolders(s.mem, q, id, drains);
    case DoAdmit(p) =>
    case DoJoinClient(p, id) => ClientJoinHolders(s.mem, p, id);
    case DoClientSend(p, raw) => ClientHolders(s.mem, p, raw, "");
    case DoAck(p, id) => ClientHolders(s.mem, p, Json(Notice(Connected, "", 0)), id);
  }

  lemma HoldersAfter(s: State, step: Step)
    requires !step.DoResume?
    ensures SameHolders(s.mem, Apply(s, step).mem)
  {
    if ByHost(step) {
      HoldersAfterHost(s, step);
    } else if ByClient(step) {
      HoldersAfterClient(s, step);
    } else {
      match step
      case DoDetach(q, d) => DetachHolders(s.mem, q, d);
      case DoExpire => ExpireHolders(s.mem);
      case DoHangup(p) => OtherHolders(s.mem, p, Notice(Connected, "", 0));
      case DoControl(q, msg) => OtherHolders(s.mem, q, msg);
      case DoDrain(q) => OtherHolders(s.mem, q, Notice(Connected, "", 0));
      case DoTask(i, _, _) => if i < |s.mem.tasks| { FailureHolders(s.mem, i); }
      case _ =>
    }
  }

  lemma StaysSuperseded(s: State, step: Step, p: PeerId)
    requires SupersededClient(s.mem, p) && !(step.DoResume? && step.p == p)
    ensures SupersededClient(Apply(s, step).mem, p)
  {
    FineStep(s, step);
    if step.DoResume? {
      ResumeKeepsSuperseded(s.mem, step.p, step.msg, LoadsCursor(s, step.p, step.msg.clientID, step.loads), p);
    } else {
      HoldersAfter(s, step);
    }
  }

  lemma ResumeKeepsSuperseded(m: Memory, q: PeerId, msg: Message, loaded: string, p: PeerId)
    requires SupersededClient(m, p) && q != p
    ensures SupersededClient(Resume(m, q, msg, loaded), p)
  {
  }

  function WithoutAcks(steps: seq<Step>, p: PeerId): seq<Step> {
    if steps == [] then []
    else
      var before, step := steps[..|steps| - 1], steps[|steps| - 1];
      if step.DoAck? && step.p == p then WithoutAcks(before, p) else WithoutAcks(before, p) + [step]
  }

  /** Until it resumes again, every acknowledgement of a superseded connection can be deleted from any
      run without changing any holder, cursor, pending write or stored row. */
  lemma {:induction false} SupersededClientIsInert(s: State, steps: seq<Step>, p: PeerId)
    requires SupersededClient(s.mem, p) && NoResume(steps, p)
    ensures SupersededClient(Run(s, steps).mem, p)
    ensures Run(s, WithoutAcks(steps, p)) == Run(s, steps)
  {
    if steps != [] {
      var before, step := steps[..|steps| - 1], steps[|steps| - 1];
      SupersededClientIsInert(s, before, p);
      StaysSuperseded(Run(s, before), step, p);
      if step.DoAck? && step.p == p {
        StaleAckIgnored(Run(s, before), p, step.eventID);
      } else {
        var e := WithoutAcks(before, p) + [step];
        assert e[..|e| - 1] == WithoutAcks(before, p);
      }
    }
  }

  /** A resume under an id another connection holds supersedes that connection. */
  lemma ResumeSupersedes(m: Memory, p: PeerId, msg: Message, loaded: string)
    requires Running(m, p, Client) && msg.clientID in m.room.byID && msg.clientID != ""
    requires var old_ := m.room.byID[msg.clientID];
             old_ != p && old_ in m.peers && m.peers[old_].role == Client && m.peers[old_].clientID == msg.clientID
    ensures var m' := Resume(m, p, msg, loaded); var old_ := m.room.byID[msg.clientID];
            m'.room.byID[msg.clientID] == p && SupersededClient(m', old_) && m'.peers[old_].closed
  {
  }
}
