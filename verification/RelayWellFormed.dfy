/** Entries, rows and tasks agree with the bytes they carry, and running clients are attached. */
module RelayWellFormed {
  import opened Messages
  import opened History
  import opened Store
  import opened Relay
  import opened RelayMachine
  import opened RelayFrames
  import opened RelayPeers

  /** The entry's fields are those of the message it would be replayed as. */
  predicate FaithfulEvent(ev: RoomEvent) {
    ev == EventOf(ev.raw, ev.typ) && ev.raw.msg.typ == Encrypted && ev.eventID != ""
  }

  predicate FaithfulHistory(h: seq<RoomEvent>) {
    forall i :: 0 <= i < |h| ==> FaithfulEvent(h[i])
  }

  predicate FaithfulTask(task: Task) {
    task.PersistEvent? ==> task.raw.msg == task.msg && task.msg.typ == Encrypted
  }

  predicate FaithfulTasks(tasks: seq<Task>) {
    forall i :: 0 <= i < |tasks| ==> FaithfulTask(tasks[i])
  }

  ghost predicate FaithfulStore(t: Tables) {
    forall k :: k in t.events ==> FaithfulEvent(FromRow(k.1, k.2, t.events[k])) && t.events[k].typ == Encrypted
  }

  ghost predicate WF(s: State) {
    && FaithfulHistory(s.mem.room.history) && FaithfulTasks(s.mem.tasks) && FaithfulStore(s.store)
    && Attached(s.mem)
  }

  lemma AppendFaithful(h: seq<RoomEvent>, raw: Raw, typ: MsgType)
    requires FaithfulHistory(h) && raw.msg.typ == Encrypted
    ensures FaithfulHistory(Append(h, EventOf(raw, typ)))
  {
  }

  lemma BroadcastFaithful(m: Memory, p: PeerId, msg: Message)
    requires FaithfulHistory(m.room.history) && msg.typ == Encrypted
    ensures FaithfulHistory(Broadcast(m, p, msg).room.history)
  {
    var r := Bind(m.room, msg.sessionID, msg.epoch, false);
    AppendFaithful(r.history, Json(Stamp(msg, r)), Encrypted);
  }

  lemma ActivationFaithful(m: Memory, p: PeerId, msg: Message, meta: Meta, replace: bool)
    requires FaithfulHistory(m.room.history)
    ensures FaithfulHistory(Activate(m, p, msg, meta, replace).room.history)
  {
  }

  lemma LoadFaithful(t: Tables, key: Key)
    requires FaithfulStore(t)
    ensures FaithfulHistory(LoadedRoom(t, key).history)
  {
    var h := LoadedRoom(t, key).history;
    forall i | 0 <= i < |h| ensures FaithfulEvent(h[i]) {
      var k := (key, t.rooms[key].session, h[i].eventID);
      assert k in t.events;
    }
  }

  lemma HistoryFaithful(s: State, step: Step)
    requires WF(s)
    ensures FaithfulHistory(Apply(s, step).mem.room.history)
  {
    match step
    case DoHydrate(_) => LoadFaithful(s.store, s.key);
    case DoBroadcast(p, msg) => if msg.typ == Encrypted { BroadcastFaithful(s.mem, p, msg); }
    case DoClientSend(p, raw) =>
      if raw.msg.typ == Encrypted { AppendFaithful(s.mem.room.history, raw, ClientEncrypted); }
    case DoActivate(p, msg, sid, meta, replace) => ActivationFaithful(s.mem, p, Named(msg, sid), meta, replace);
    case DoCrash =>
    case _ => QuietStep(s, step);
  }

  lemma TaskStoreFaithful(t: Tables, key: Key, task: Task, now: int)
    requires FaithfulStore(t) && FaithfulTask(task)
    ensures FaithfulStore(TaskStore(t, key, task, now))
  {
    var u := TaskStore(t, key, task, now);
    forall k | k in u.events
      ensures FaithfulEvent(FromRow(k.1, k.2, u.events[k])) && u.events[k].typ == Encrypted
    {
      assert (k in t.events && u.events[k] == t.events[k]) || (task.PersistEvent? && u.events[k].raw == task.raw);
    }
  }

  lemma StoreFaithful(s: State, step: Step)
    requires FaithfulTasks(s.mem.tasks) && FaithfulStore(s.store)
    ensures FaithfulStore(Apply(s, step).store)
  {
    StoreAfter(s, step);
    if step.DoCleanup? {
      CleanupFaithful(s.store, step.cutoff);
    } else if step.DoTask? && step.i < |s.mem.tasks| {
      TaskStoreFaithful(s.store, s.key, s.mem.tasks[step.i], step.now);
    }
  }

  lemma CleanupFaithful(t: Tables, cutoff: int)
    requires FaithfulStore(t)
    ensures FaithfulStore(Cleaned(t, cutoff))
  {
    var u := Cleaned(t, cutoff);
    assert forall k :: k in u.events ==> k in t.events && u.events[k] == t.events[k];
  }

  /** The tasks a handler starts. */
  function Started(s: State, step: Step): seq<Task> {
    var m := s.mem;
    match step
    case DoBroadcast(p, msg) =>
      if msg.typ != Encrypted || !IsServer(m, p) then []
      else
        var r := Bind(m.room, msg.sessionID, msg.epoch, false);
        var wire := Json(Stamp(msg, r));
        if IsNew(r.history, msg.eventID) && wire.msg.sessionID != "" && msg.eventID != ""
        then [PersistEvent(p, wire.msg, wire, 0)] else []
    case DoClientSend(p, raw) =>
      if raw.msg.typ == Encrypted && Running(m, p, Client)
         && IsNew(m.room.history, raw.msg.eventID) && raw.msg.sessionID != ""
      then [PersistEvent(p, raw.msg, raw, 0)] else []
    case DoActivate(p, msg, dataSession, meta, replace) =>
      var sid := Named(msg, dataSession).sessionID;
      if msg.typ != ActiveSession || sid == "" || !IsServer(m, p) then []
      else [PersistSession(sid, AtLeastOne(msg.epoch), meta)]
    case DoAck(p, eventID) =>
      if Ack(m, p, eventID) == m || !Running(m, p, Client) then []
      else [SaveCursor(m.peers[p].clientID, m.room.sessionID, eventID)]
    case _ => if Apply(s, step).mem.room.live || !m.room.live then [] else [DestroyRows]
  }

  lemma StartedByBroadcast(s: State, step: Step)
    requires step.DoBroadcast?
    ensures Apply(s, step).mem.tasks == s.mem.tasks + Started(s, step)
    ensures Apply(s, step).mem.abandoned == s.mem.abandoned
    ensures FaithfulTasks(Started(s, step))
  {
  }

  lemma StartedByClient(s: State, step: Step)
    requires step.DoClientSend?
    ensures Apply(s, step).mem.tasks == s.mem.tasks + Started(s, step)
    ensures Apply(s, step).mem.abandoned == s.mem.abandoned
    ensures FaithfulTasks(Started(s, step))
  {
  }

  lemma StartedByActivation(s: State, step: Step)
    requires step.DoActivate?
    ensures Apply(s, step).mem.tasks == s.mem.tasks + Started(s, step)
    ensures Apply(s, step).mem.abandoned == s.mem.abandoned
    ensures FaithfulTasks(Started(s, step))
  {
  }

  lemma StartedTasks(s: State, step: Step)
    requires !step.DoTask? && !step.DoCrash?
    ensures Apply(s, step).mem.tasks == s.mem.tasks + Started(s, step)
    ensures Apply(s, step).mem.abandoned == s.mem.abandoned
    ensures FaithfulTasks(Started(s, step))
  {
    match step
    case DoKeyReady(p, id, drains) => TasksKeyReady(s.mem, p, id, drains);
    case DoResume(p, msg, loads) => TasksResume(s.mem, p, msg, LoadsCursor(s, p, msg.clientID, loads));
    case DoDetach(p, d) => TasksDetach(s.mem, p, d);
    case DoJoinClient(p, id) => TasksJoin(s.mem, p, id);
    case DoAck(p, eventID) => TasksAck(s.mem, p, eventID);
    case DoBroadcast(_, _) => StartedByBroadcast(s, step);
    case DoClientSend(_, _) => StartedByClient(s, step);
    case DoActivate(_, _, _, _, _) => StartedByActivation(s, step);
    case _ =>
  }

  lemma TasksAck(m: Memory, p: PeerId, eventID: string)
    ensures var m' := Ack(m, p, eventID);
            && m'.abandoned == m.abandoned
            && m'.tasks == m.tasks + (if m' == m || !Running(m, p, Client) then []
                                      else [SaveCursor(m.peers[p].clientID, m.room.sessionID, eventID)])
  {
    var m' := Ack(m, p, eventID);
    assert m'.tasks == m.tasks || |m'.tasks| == |m.tasks| + 1;
  }

  lemma TasksKeyReady(m: Memory, p: PeerId, id: string, drains: seq<nat>)
    ensures var m' := KeyReady(m, p, id, drains);
            m'.tasks == m.tasks && m'.abandoned == m.abandoned && m'.room.live == m.room.live
  {
  }

  lemma TasksResume(m: Memory, p: PeerId, msg: Message, loaded: string)
    ensures var m' := Resume(m, p, msg, loaded);
            m'.tasks == m.tasks && m'.abandoned == m.abandoned && m'.room.live == m.room.live
  {
  }

  lemma TasksJoin(m: Memory, p: PeerId, id: string)
    ensures var m' := JoinClient(m, p, id);
            m'.tasks == m.tasks && m'.abandoned == m.abandoned && m'.room.live == m.room.live
  {
  }

  lemma TasksDetach(m: Memory, p: PeerId, d: bool)
    ensures var m' := Detach(m, p, d);
            && m'.abandoned == m.abandoned
            && m'.tasks == m.tasks + (if m'.room.live || !m.room.live then [] else [DestroyRows])
  {
  }

  lemma TasksFaithful(s: State, step: Step)
    requires WF(s)
    ensures FaithfulTasks(Apply(s, step).mem.tasks)
  {
    if step.DoTask? {
      if step.i < |s.mem.tasks| {
        assert FaithfulTask(s.mem.tasks[step.i]);
        assert FaithfulTasks(Without(s.mem.tasks, step.i));
      }
    } else if !step.DoCrash? {
      StartedTasks(s, step);
    }
  }

  lemma StepKeepsWF(s: State, step: Step)
    requires WF(s)
    ensures WF(Apply(s, step))
  {
    HistoryFaithful(s, step);
    StoreFaithful(s, step);
    TasksFaithful(s, step);
    FineStep(s, step);
  }

  lemma {:induction false} WFAlways(key: Key, store: Tables, steps: seq<Step>)
    requires FaithfulStore(store)
    ensures WF(Run(Init(key, store), steps))
  {
    if steps != [] {
      WFAlways(key, store, steps[..|steps| - 1]);
      StepKeepsWF(Run(Init(key, store), steps[..|steps| - 1]), steps[|steps| - 1]);
    }
  }
}
