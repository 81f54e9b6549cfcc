/** Restarts: a room's history survives any number of them, and the store decides which session returns. */
module RelayRestart {
  import opened Messages
  import opened History
  import opened Lex
  import opened Store
  import opened StoreTheorems
  import opened Relay
  import opened RelayMachine
  import opened RelayFrames
  import opened RelayWellFormed
  import opened RelayPersistence

  // ---- Memory and store in step ----

  predicate Newest(h: seq<RoomEvent>, id: string) {
    forall i :: 0 <= i < |h| ==> Less(h[i].eventID, id)
  }

  predicate HasRaw(h: seq<RoomEvent>, raw: Raw) {
    exists i :: 0 <= i < |h| && h[i].raw == raw
  }

  /** Some persist task in the list carries these bytes. */
  predicate Carries(tasks: seq<Task>, raw: Raw) {
    exists i :: 0 <= i < |tasks| && tasks[i].PersistEvent? && tasks[i].raw == raw
  }

  predicate TaskInSync(task: Task, h: seq<RoomEvent>, sid: string) {
    && (task.PersistEvent? ==> IsNoOp(task) || (task.msg.sessionID == sid && HasRaw(h, task.raw)))
    && (task.PersistSession? ==> task.sid == sid)
  }

  /** The room's row, if any, names the session, and there are no events of it without the row. */
  ghost predicate StoreInSync(t: Tables, key: Key, sid: string) {
    && (key in t.rooms ==> t.rooms[key].session == sid && t.rooms[key].epoch > 0)
    && (forall k :: k in t.events && k.0 == key && k.1 == sid ==> key in t.rooms)
  }

  /** The entry is stored, pending or given up. */
  predicate EntryCovered(s: State, sid: string, ev: RoomEvent) {
    || (s.key, sid, ev.eventID) in s.store.events
    || Carries(s.mem.tasks, ev.raw) || Carries(s.mem.abandoned, ev.raw)
  }

  predicate Covered(s: State, sid: string) {
    forall i :: 0 <= i < |s.mem.room.history| ==> EntryCovered(s, sid, s.mem.room.history[i])
  }

  /** The room holds one session whose entries are increasing and all stored, pending or given up, and the
      store and the tasks know nothing else about that session. */
  ghost predicate InSync(s: State, sid: string) {
    var h := s.mem.room.history;
    && sid != "" && s.mem.room.sessionID == sid && s.mem.room.epoch > 0 && IncreasingIds(h)
    && (forall i :: 0 <= i < |h| ==> h[i].sessionID == sid)
    && Covered(s, sid)
    && (forall k :: k in s.store.events && k.0 == s.key && k.1 == sid ==> HasRaw(h, s.store.events[k].raw))
    && (forall i :: 0 <= i < |s.mem.tasks| ==> TaskInSync(s.mem.tasks[i], h, sid))
    && StoreInSync(s.store, s.key, sid)
  }

  predicate IdleTask(task: Task) { task.SaveCursor? || task.DestroyRows? || IsNoOp(task) }

  /** The process runs but the room holds nothing yet, and no task will write events or sessions. */
  ghost predicate Down(s: State, sid: string) {
    && sid != "" && s.mem.room.sessionID == "" && s.mem.room.history == [] && StoreInSync(s.store, s.key, sid)
    && forall i :: 0 <= i < |s.mem.tasks| ==> IdleTask(s.mem.tasks[i])
  }

  ghost predicate Synced(s: State, sid: string) { InSync(s, sid) || Down(s, sid) }

  /** No persist task is pending, and none of the history's events was given up. */
  predicate Quiescent(m: Memory) {
    && (forall i :: 0 <= i < |m.tasks| && m.tasks[i].PersistEvent? ==> IsNoOp(m.tasks[i]))
    && (forall i :: 0 <= i < |m.room.history| ==> !Carries(m.abandoned, m.room.history[i].raw))
  }

  /** One session and one epoch, increasing ids; the rows are neither destroyed nor past retention, and a
      room whose rows exist is restored before it is used. Tasks finish, fail and are given up in any
      order, and the process may die at any moment. */
  predicate Orderly(s: State, step: Step, sid: string) {
    var r, up, stored := s.mem.room, s.mem.room.sessionID != "", s.key in s.store.rooms;
    match step
    case DoBroadcast(p, msg) => IsServer(s.mem, p) ==>
      && (msg.sessionID == "" || msg.sessionID == sid)
      && (if up then msg.sessionID == sid ==> AtLeastOne(msg.epoch) == r.epoch
          else if msg.sessionID == "" then msg.eventID == "" else !stored)
      && (msg.eventID == "" || Newest(r.history, msg.eventID))
    case DoClientSend(p, raw) => Running(s.mem, p, Client) ==>
      raw.msg.eventID == "" || (up && raw.msg.sessionID == sid && Newest(r.history, raw.msg.eventID))
    case DoActivate(p, msg, dataSession, _, replace) => IsServer(s.mem, p) ==>
      var named := Named(msg, dataSession).sessionID;
      named == "" || (named == sid && if up then AtLeastOne(msg.epoch) == r.epoch && !replace else !stored)
    case DoTask(i, commits, _) => commits && i < |s.mem.tasks| ==> !s.mem.tasks[i].DestroyRows?
    case DoCleanup(cutoff) => !SessionExpired(s.store, s.key, sid, cutoff)
    case _ => true
  }

  lemma NewestIsNew(h: seq<RoomEvent>, id: string)
    requires Newest(h, id)
    ensures FindRecent(h, id).None?
  {
    Irreflexive(id);
  }

  lemma HasRawGrows(h: seq<RoomEvent>, added: seq<RoomEvent>, raw: Raw)
    ensures HasRaw(h, raw) ==> HasRaw(h + added, raw)
  {
    if HasRaw(h, raw) {
      var i :| 0 <= i < |h| && h[i].raw == raw;
      assert (h + added)[i].raw == raw;
    }
  }

  lemma PendingGrows(ts: seq<Task>, started: seq<Task>, raw: Raw)
    ensures Carries(ts, raw) || Carries(started, raw) ==> Carries(ts + started, raw)
  {
    if Carries(ts, raw) {
      var i :| 0 <= i < |ts| && ts[i].PersistEvent? && ts[i].raw == raw;
      assert (ts + started)[i].raw == raw;
    } else if Carries(started, raw) {
      var i :| 0 <= i < |started| && started[i].PersistEvent? && started[i].raw == raw;
      assert (ts + started)[|ts| + i].raw == raw;
    }
  }

  /** A state with the same store whose history and tasks grew by at most one new entry and its task. */
  lemma GrowthInSync(s: State, s': State, sid: string, added: seq<RoomEvent>, started: seq<Task>)
    requires InSync(s, sid)
    requires s'.store == s.store && s'.key == s.key
    requires s'.mem.room.sessionID == sid && s'.mem.room.epoch > 0
    requires s'.mem.room.history == s.mem.room.history + added && s'.mem.tasks == s.mem.tasks + started
    requires s'.mem.abandoned == s.mem.abandoned
    requires |added| <= 1
    requires added != [] ==> added[0].sessionID == sid && Newest(s.mem.room.history, added[0].eventID)
                             && Carries(started, added[0].raw)
    requires forall i :: 0 <= i < |started| ==> TaskInSync(started[i], s'.mem.room.history, sid)
    ensures InSync(s', sid)
  {
    var h := s.mem.room.history;
    CoverageGrows(s, s', sid, added, started);
    TasksGrowInSync(s.mem.tasks, h, added, sid);
    IncreasingGrows(h, added);
    forall k | k in s.store.events && k.0 == s.key && k.1 == sid ensures HasRaw(h + added, s.store.events[k].raw) {
      HasRawGrows(h, added, s.store.events[k].raw);
    }
  }

  lemma CoverageGrows(s: State, s': State, sid: string, added: seq<RoomEvent>, started: seq<Task>)
    requires Covered(s, sid) && s'.store == s.store && s'.key == s.key && s'.mem.abandoned == s.mem.abandoned
    requires s'.mem.room.history == s.mem.room.history + added && s'.mem.tasks == s.mem.tasks + started
    requires |added| <= 1 && (added != [] ==> Carries(started, added[0].raw))
    ensures Covered(s', sid)
  {
    var h, h' := s.mem.room.history, s'.mem.room.history;
    forall i | 0 <= i < |h'| ensures EntryCovered(s', sid, h'[i]) {
      PendingGrows(s.mem.tasks, started, h'[i].raw);
      if i < |h| { assert h'[i] == h[i] && EntryCovered(s, sid, h[i]); }
    }
  }

  lemma IncreasingGrows(h: seq<RoomEvent>, added: seq<RoomEvent>)
    requires IncreasingIds(h) && |added| <= 1 && (added != [] ==> Newest(h, added[0].eventID))
    ensures IncreasingIds(h + added)
  {
  }

  lemma TasksGrowInSync(ts: seq<Task>, h: seq<RoomEvent>, added: seq<RoomEvent>, sid: string)
    requires forall i :: 0 <= i < |ts| ==> TaskInSync(ts[i], h, sid)
    ensures forall i :: 0 <= i < |ts| ==> TaskInSync(ts[i], h + added, sid)
  {
    forall i | 0 <= i < |ts| ensures TaskInSync(ts[i], h + added, sid) {
      if ts[i].PersistEvent? { HasRawGrows(h, added, ts[i].raw); }
    }
  }

  // ---- Steps of a room that is up ----

  /** The event a recorded message adds, and its persist task. */
  lemma RecordInSync(s: State, r: Room, p: PeerId, msg: Message, sid: string)
    requires InSync(s, sid) && r == s.mem.room && msg.sessionID == sid
    requires msg.eventID == "" || Newest(r.history, msg.eventID)
    ensures InSync(s.(mem := Recorded(s.mem, p, Json(msg))), sid)
  {
    var wire := Json(msg);
    var s' := s.(mem := Recorded(s.mem, p, wire));
    if msg.eventID == "" {
      GrowthInSync(s, s', sid, [], []);
    } else {
      NewestIsNew(r.history, msg.eventID);
      var ev, task := EventOf(wire, Encrypted), PersistEvent(p, msg, wire, 0);
      assert (r.history + [ev])[|r.history|].raw == wire;
      assert [task][0].raw == wire;
      GrowthInSync(s, s', sid, [ev], [task]);
    }
  }

  /** An event of the room's own session and epoch changes nothing but the history. */
  lemma BroadcastRecords(m: Memory, p: PeerId, msg: Message)
    requires IsServer(m, p) && m.room.sessionID != "" && m.room.epoch > 0
    requires msg.sessionID == "" || (msg.sessionID == m.room.sessionID && AtLeastOne(msg.epoch) == m.room.epoch)
    ensures Bind(m.room, msg.sessionID, msg.epoch, false) == m.room
    ensures Broadcast(m, p, msg) == Recorded(m, p, Json(Stamp(msg, m.room)))
  {
    assert Bind(m.room, msg.sessionID, msg.epoch, false) == m.room;
  }

  lemma BroadcastInSync(s: State, p: PeerId, msg: Message, sid: string)
    requires InSync(s, sid) && IsServer(s.mem, p) && Orderly(s, DoBroadcast(p, msg), sid)
    ensures InSync(s.(mem := Broadcast(s.mem, p, msg)), sid)
  {
    BroadcastRecords(s.mem, p, msg);
    RecordInSync(s, s.mem.room, p, Stamp(msg, s.mem.room), sid);
  }

  lemma ClientSendInSync(s: State, p: PeerId, raw: Raw, sid: string)
    requires InSync(s, sid) && Running(s.mem, p, Client) && Orderly(s, DoClientSend(p, raw), sid)
    ensures InSync(s.(mem := ClientSend(s.mem, p, raw)), sid)
  {
    var r := s.mem.room;
    var s' := s.(mem := ClientSend(s.mem, p, raw));
    var ev, task := EventOf(raw, ClientEncrypted), PersistEvent(p, raw.msg, raw, 0);
    if raw.msg.eventID == "" {
      GrowthInSync(s, s', sid, [], if raw.msg.sessionID != "" then [task] else []);
    } else {
      NewestIsNew(r.history, raw.msg.eventID);
      assert (r.history + [ev])[|r.history|].raw == raw;
      assert [task][0].raw == raw;
      GrowthInSync(s, s', sid, [ev], [task]);
    }
  }

  lemma ActivateInSync(s: State, p: PeerId, msg: Message, meta: Meta, sid: string)
    requires InSync(s, sid) && IsServer(s.mem, p) && msg.sessionID == sid && AtLeastOne(msg.epoch) == s.mem.room.epoch
    ensures InSync(s.(mem := Activate(s.mem, p, msg, meta, false)), sid)
  {
    GrowthInSync(s, s.(mem := Activate(s.mem, p, msg, meta, false)), sid, [],
                 [PersistSession(sid, s.mem.room.epoch, meta)]);
  }

  /** Handlers that leave session and history alone start no task that writes events or sessions. */
  lemma QuietTasks(s: State, step: Step)
    requires !Writes(step) && !step.DoTask?
    ensures forall i :: 0 <= i < |Started(s, step)| ==> IdleTask(Started(s, step)[i])
  {
  }

  lemma QuietInSync(s: State, step: Step, sid: string)
    requires InSync(s, sid) && !Writes(step) && !step.DoTask? && !step.DoCleanup?
    ensures InSync(Apply(s, step), sid)
  {
    QuietStep(s, step);
    StartedTasks(s, step);
    StepStore(s, step);
    StepKey(s, step);
    QuietTasks(s, step);
    assert Apply(s, step).mem.room.history == s.mem.room.history + [];
    GrowthInSync(s, Apply(s, step), sid, [], Started(s, step));
  }

  /** A failed attempt leaves its task in the list, or moves it to the ones given up. */
  lemma FailureCarries(m: Memory, i: nat, raw: Raw)
    requires i < |m.tasks|
    ensures var m' := TaskFailed(m, i);
            Carries(m.tasks, raw) || Carries(m.abandoned, raw) ==> Carries(m'.tasks, raw) || Carries(m'.abandoned, raw)
  {
    var m' := TaskFailed(m, i);
    if Carries(m.tasks, raw) {
      var j :| 0 <= j < |m.tasks| && m.tasks[j].PersistEvent? && m.tasks[j].raw == raw;
      if |m'.tasks| == |m.tasks| || j < i {
        assert m'.tasks[j].raw == raw;
      } else if j > i {
        assert m'.tasks[j - 1].raw == raw;
      } else {
        assert m'.abandoned[|m.abandoned|].raw == raw;
      }
    } else if Carries(m.abandoned, raw) {
      var j :| 0 <= j < |m.abandoned| && m.abandoned[j].PersistEvent? && m.abandoned[j].raw == raw;
      assert m'.abandoned[j].raw == raw;
    }
  }

  lemma FailureInSync(s: State, i: nat, sid: string)
    requires InSync(s, sid) && i < |s.mem.tasks|
    ensures InSync(s.(mem := TaskFailed(s.mem, i)), sid)
  {
    var m, m', h := s.mem, TaskFailed(s.mem, i), s.mem.room.history;
    forall j | 0 <= j < |h| ensures EntryCovered(s.(mem := m'), sid, h[j]) {
      assert EntryCovered(s, sid, h[j]);
      FailureCarries(m, i, h[j].raw);
    }
    forall j | 0 <= j < |m'.tasks| ensures TaskInSync(m'.tasks[j], h, sid) {
      assert TaskInSync(m.tasks[j], h, sid);
      assert j + 1 < |m.tasks| ==> TaskInSync(m.tasks[j + 1], h, sid);
    }
  }

  lemma RawIdentifies(h: seq<RoomEvent>, i: nat, raw: Raw)
    requires FaithfulHistory(h) && i < |h| && h[i].raw == raw
    ensures h[i].eventID == raw.msg.eventID && h[i].sessionID == raw.msg.sessionID && h[i].eventID != ""
  {
    assert FaithfulEvent(h[i]);
  }

  /** A committed task is gone from the list, and its event's row is in the table. */
  lemma CommitKeepsPending(s: State, i: nat, now: int, sid: string, j: nat)
    requires InSync(s, sid) && WF(s) && i < |s.mem.tasks| && !s.mem.tasks[i].DestroyRows? && j < |s.mem.room.history|
    ensures EntryCovered(RunTask(s, i, true, now), sid, s.mem.room.history[j])
  {
    var s' := RunTask(s, i, true, now);
    var h, ts, ts' := s.mem.room.history, s.mem.tasks, s'.mem.tasks;
    assert ts' == Without(ts, i) && EntryCovered(s, sid, h[j]);
    if (s.key, sid, h[j].eventID) !in s'.store.events && !Carries(s.mem.abandoned, h[j].raw) {
      var k :| 0 <= k < |ts| && ts[k].PersistEvent? && ts[k].raw == h[j].raw;
      RawIdentifies(h, j, ts[k].raw);
      assert FaithfulTask(ts[k]) && TaskInSync(ts[k], h, sid);
      if k < i { assert ts'[k].raw == h[j].raw; } else { assert k != i; assert ts'[k - 1].raw == h[j].raw; }
    }
  }

  lemma CommitRows(t: Tables, key: Key, task: Task, now: int, h: seq<RoomEvent>, sid: string)
    requires FaithfulTask(task) && TaskInSync(task, h, sid) && !task.DestroyRows? && sid != ""
    requires StoreInSync(t, key, sid)
    requires forall k :: k in t.events && k.0 == key && k.1 == sid ==> HasRaw(h, t.events[k].raw)
    ensures var u := TaskStore(t, key, task, now);
            && StoreInSync(u, key, sid)
            && forall k :: k in u.events && k.0 == key && k.1 == sid ==> HasRaw(h, u.events[k].raw)
  {
    var u := TaskStore(t, key, task, now);
    forall k | k in u.events && k.0 == key && k.1 == sid ensures HasRaw(h, u.events[k].raw) && key in u.rooms {
      if k !in t.events || u.events[k] != t.events[k] {
        assert task.PersistEvent? && u.events[k].raw == task.raw && !IsNoOp(task);
      }
    }
  }

  lemma CommitInSync(s: State, i: nat, now: int, sid: string)
    requires InSync(s, sid) && WF(s) && i < |s.mem.tasks| && !s.mem.tasks[i].DestroyRows?
    ensures InSync(RunTask(s, i, true, now), sid)
  {
    var s' := RunTask(s, i, true, now);
    var h, ts, ts' := s.mem.room.history, s.mem.tasks, s'.mem.tasks;
    forall j | 0 <= j < |ts'| ensures TaskInSync(ts'[j], h, sid) {
      assert TaskInSync(ts[j], h, sid) && TaskInSync(ts[j + 1], h, sid);
    }
    forall j | 0 <= j < |h| ensures EntryCovered(s', sid, h[j]) {
      CommitKeepsPending(s, i, now, sid, j);
    }
    CommitRows(s.store, s.key, ts[i], now, h, sid);
  }

  lemma CleanupInStep(t: Tables, key: Key, sid: string, cutoff: int)
    requires StoreInSync(t, key, sid) && sid != "" && !SessionExpired(t, key, sid, cutoff)
    ensures StoreInSync(Cleaned(t, cutoff), key, sid)
    ensures forall k :: k in t.events && k.0 == key && k.1 == sid ==> k in Cleaned(t, cutoff).events
    ensures forall k :: k in Cleaned(t, cutoff).events ==> k in t.events && Cleaned(t, cutoff).events[k] == t.events[k]
  {
    var u := Cleaned(t, cutoff);
    assert key in t.rooms ==> key in u.rooms && u.rooms[key] == t.rooms[key];
  }

  lemma CleanupInSync(s: State, cutoff: int, sid: string)
    requires InSync(s, sid) && !SessionExpired(s.store, s.key, sid, cutoff)
    ensures InSync(s.(store := Cleaned(s.store, cutoff)), sid)
  {
    CleanupInStep(s.store, s.key, sid, cutoff);
    var s' := s.(store := Cleaned(s.store, cutoff));
    forall i | 0 <= i < |s.mem.room.history| ensures EntryCovered(s', sid, s.mem.room.history[i]) {
      assert EntryCovered(s, sid, s.mem.room.history[i]);
    }
  }

  lemma TaskInSyncStep(s: State, step: Step, sid: string)
    requires InSync(s, sid) && WF(s) && Orderly(s, step, sid) && step.DoTask?
    ensures InSync(Apply(s, step), sid)
  {
    if step.i < |s.mem.tasks| {
      if step.commits {
        CommitInSync(s, step.i, step.now, sid);
      } else if IsNoOp(s.mem.tasks[step.i]) {
        CommitInSync(s, step.i, step.now, sid);
      } else {
        FailureInSync(s, step.i, sid);
      }
    }
  }

  lemma EventStepInSync(s: State, step: Step, sid: string)
    requires InSync(s, sid) && Orderly(s, step, sid) && (step.DoBroadcast? || step.DoClientSend? || step.DoActivate?)
    ensures InSync(Apply(s, step), sid)
  {
    match step
    case DoBroadcast(p, msg) => if msg.typ == Encrypted && IsServer(s.mem, p) { BroadcastInSync(s, p, msg, sid); }
    case DoClientSend(p, raw) =>
      if raw.msg.typ == Encrypted && Running(s.mem, p, Client) { ClientSendInSync(s, p, raw, sid); }
    case DoActivate(p, msg, dataSession, meta, replace) =>
      if msg.typ == ActiveSession && IsServer(s.mem, p) && Named(msg, dataSession).sessionID != "" {
        ActivateInSync(s, p, Named(msg, dataSession), meta, sid);
      }
  }

  /** Every orderly step of a room that is up keeps it in step, or crashes. */
  lemma UpStep(s: State, step: Step, sid: string)
    requires InSync(s, sid) && WF(s) && Orderly(s, step, sid) && !step.DoCrash?
    ensures InSync(Apply(s, step), sid)
  {
    if step.DoBroadcast? || step.DoClientSend? || step.DoActivate? {
      EventStepInSync(s, step, sid);
    } else if step.DoTask? {
      TaskInSyncStep(s, step, sid);
    } else if step.DoCleanup? {
      CleanupInSync(s, step.cutoff, sid);
    } else if !step.DoHydrate? {
      QuietInSync(s, step, sid);
    }
  }

  lemma CrashGoesDown(s: State, sid: string)
    requires Synced(s, sid)
    ensures Down(Apply(s, DoCrash), sid)
  {
  }

  // ---- Steps of a room that is down ----

  lemma DownTask(s: State, step: Step, sid: string)
    requires Down(s, sid) && Orderly(s, step, sid) && step.DoTask?
    ensures Down(Apply(s, step), sid) && Apply(s, step).store.events == s.store.events
  {
    if step.i < |s.mem.tasks| {
      assert IdleTask(s.mem.tasks[step.i]);
      var ts := Without(s.mem.tasks, step.i);
      assert forall j :: 0 <= j < |ts| ==> ts[j] == s.mem.tasks[if j < step.i then j else j + 1];
    }
  }

  lemma DownQuiet(s: State, step: Step, sid: string)
    requires Down(s, sid) && !Writes(step) && !step.DoTask? && !step.DoCleanup?
    ensures Down(Apply(s, step), sid) && Apply(s, step).store == s.store
  {
    QuietStep(s, step);
    StartedTasks(s, step);
    StepStore(s, step);
    StepKey(s, step);
    QuietTasks(s, step);
  }

  /** What binding an empty room without rows gives. */
  lemma FirstBinding(s: State, r: Room, sid: string, tasks: seq<Task>)
    requires Down(s, sid) && s.key !in s.store.rooms
    requires r.sessionID == sid && r.epoch > 0 && r.history == []
    requires tasks == s.mem.tasks || exists epoch, meta :: tasks == s.mem.tasks + [PersistSession(sid, epoch, meta)]
    ensures forall peers, admitted, abandoned ::
              InSync(s.(mem := Memory(r, peers, admitted, tasks, abandoned)), sid)
  {
  }

  lemma DownBroadcast(s: State, p: PeerId, msg: Message, sid: string)
    requires Down(s, sid) && IsServer(s.mem, p) && Orderly(s, DoBroadcast(p, msg), sid) && msg.typ == Encrypted
    ensures Synced(Apply(s, DoBroadcast(p, msg)), sid)
  {
    if msg.sessionID != "" {
      var r := Bind(s.mem.room, msg.sessionID, msg.epoch, false);
      FirstBinding(s, r, sid, s.mem.tasks);
      var s' := s.(mem := s.mem.(room := r));
      assert InSync(s', sid);
      RecordInSync(s', r, p, Stamp(msg, r), sid);
    }
  }

  lemma DownActivate(s: State, p: PeerId, msg: Message, meta: Meta, replace: bool, sid: string)
    requires Down(s, sid) && IsServer(s.mem, p) && msg.sessionID == sid && s.key !in s.store.rooms
    ensures InSync(s.(mem := Activate(s.mem, p, msg, meta, replace)), sid)
  {
    var m := Activate(s.mem, p, msg, meta, replace);
    assert m.tasks == s.mem.tasks + [PersistSession(sid, m.room.epoch, meta)];
    FirstBinding(s, m.room, sid, m.tasks);
  }

  lemma DownClientSend(s: State, p: PeerId, raw: Raw, sid: string)
    requires Down(s, sid) && Running(s.mem, p, Client) && raw.msg.eventID == ""
    ensures Down(s.(mem := ClientSend(s.mem, p, raw)), sid)
  {
  }

  lemma RowsComplete(t: Tables, key: Key, sid: string, k: (Key, string, string))
    requires k in t.events && k.0 == key && k.1 == sid
    ensures HasRaw(Rows(t, key, sid), t.events[k].raw)
  {
    EventIdsMember(t, key, sid, k.2);
    var ids, rows := Sorted(EventIds(t, key, sid)), Rows(t, key, sid);
    var i :| 0 <= i < |ids| && ids[i] == k.2;
    assert rows[i].raw == t.events[k].raw;
  }

  lemma DownHydrate(s: State, sid: string)
    requires Down(s, sid)
    ensures Synced(Apply(s, DoHydrate(true)), sid)
    ensures s.key in s.store.rooms ==>
              var r := Apply(s, DoHydrate(true)).mem.room; r.sessionID == sid && r.history == Rows(s.store, s.key, sid)
    ensures s.key !in s.store.rooms ==> Apply(s, DoHydrate(true)) == s
  {
    if s.key in s.store.rooms {
      forall k | k in s.store.events && k.0 == s.key && k.1 == sid
        ensures HasRaw(Rows(s.store, s.key, sid), s.store.events[k].raw)
      {
        RowsComplete(s.store, s.key, sid, k);
      }
    }
  }

  lemma DownStep(s: State, step: Step, sid: string)
    requires Down(s, sid) && Orderly(s, step, sid)
    ensures Synced(Apply(s, step), sid)
  {
    match step
    case DoHydrate(loads) => if loads { DownHydrate(s, sid); }
    case DoBroadcast(p, msg) => if IsServer(s.mem, p) && msg.typ == Encrypted { DownBroadcast(s, p, msg, sid); }
    case DoClientSend(p, raw) =>
      if Running(s.mem, p, Client) && raw.msg.typ == Encrypted { DownClientSend(s, p, raw, sid); }
    case DoActivate(p, msg, dataSession, meta, replace) =>
      if IsServer(s.mem, p) && msg.typ == ActiveSession && Named(msg, dataSession).sessionID != "" {
        DownActivate(s, p, Named(msg, dataSession), meta, replace, sid);
      }
    case DoTask(_, _, _) => DownTask(s, step, sid);
    case DoCleanup(cutoff) => CleanupInStep(s.store, s.key, sid, cutoff);
    case DoCrash => CrashGoesDown(s, sid);
    case _ => DownQuiet(s, step, sid);
  }

  lemma StepSynced(s: State, step: Step, sid: string)
    requires Synced(s, sid) && WF(s) && Orderly(s, step, sid)
    ensures Synced(Apply(s, step), sid)
  {
    if Down(s, sid) {
      DownStep(s, step, sid);
    } else if step.DoCrash? {
      CrashGoesDown(s, sid);
    } else {
      UpStep(s, step, sid);
    }
  }

  predicate AllOrderly(s: State, steps: seq<Step>, sid: string) {
    steps == [] ||
    (AllOrderly(s, steps[..|steps| - 1], sid) && Orderly(Run(s, steps[..|steps| - 1]), steps[|steps| - 1], sid))
  }

  lemma {:induction false} RunSynced(s: State, steps: seq<Step>, sid: string)
    requires Synced(s, sid) && WF(s) && AllOrderly(s, steps, sid)
    ensures Synced(Run(s, steps), sid) && WF(Run(s, steps))
  {
    if steps != [] {
      RunSynced(s, steps[..|steps| - 1], sid);
      StepSynced(Run(s, steps[..|steps| - 1]), steps[|steps| - 1], sid);
      StepKeepsWF(Run(s, steps[..|steps| - 1]), steps[|steps| - 1]);
    }
  }

  // ---- Reloading ----

  /** The entry as it comes back: client events are stored under the wire type. */
  function Reloaded(ev: RoomEvent): RoomEvent { ev.(typ := Encrypted) }

  predicate IsReload(h: seq<RoomEvent>, h': seq<RoomEvent>) {
    |h'| == |h| && forall i :: 0 <= i < |h| ==> h'[i] == Reloaded(h[i])
  }

  predicate IsStored(t: Tables, key: Key, sid: string, ev: RoomEvent) { (key, sid, ev.eventID) in t.events }

  /** The entries whose rows are stored, in order. */
  function StoredPart(h: seq<RoomEvent>, t: Tables, key: Key, sid: string): seq<RoomEvent> {
    if h == [] then []
    else
      var before, last := StoredPart(h[..|h| - 1], t, key, sid), h[|h| - 1];
      if IsStored(t, key, sid, last) then before + [last] else before
  }

  lemma {:induction false} PartMembers(h: seq<RoomEvent>, t: Tables, key: Key, sid: string)
    ensures forall e :: e in StoredPart(h, t, key, sid) <==> e in h && IsStored(t, key, sid, e)
  {
    if h != [] {
      PartMembers(h[..|h| - 1], t, key, sid);
      assert h == h[..|h| - 1] + [h[|h| - 1]];
    }
  }

  lemma {:induction false} PartIncreasing(h: seq<RoomEvent>, t: Tables, key: Key, sid: string)
    requires IncreasingIds(h)
    ensures IncreasingIds(StoredPart(h, t, key, sid))
  {
    if h != [] {
      var init, last := h[..|h| - 1], h[|h| - 1];
      PartIncreasing(init, t, key, sid);
      PartMembers(init, t, key, sid);
      var part := StoredPart(init, t, key, sid);
      forall i | 0 <= i < |part| ensures Less(part[i].eventID, last.eventID) {
        assert part[i] in init;
        var j :| 0 <= j < |init| && init[j] == part[i];
      }
    }
  }

  lemma {:induction false} PartWhole(h: seq<RoomEvent>, t: Tables, key: Key, sid: string)
    requires forall i :: 0 <= i < |h| ==> IsStored(t, key, sid, h[i])
    ensures StoredPart(h, t, key, sid) == h
  {
    if h != [] {
      PartWhole(h[..|h| - 1], t, key, sid);
      assert h == h[..|h| - 1] + [h[|h| - 1]];
    }
  }

  /** Whatever is pending or was given up, the rows of an in-step session are its stored entries. */
  lemma SyncedRows(s: State, sid: string)
    requires InSync(s, sid) && WF(s)
    ensures IsReload(StoredPart(s.mem.room.history, s.store, s.key, sid), Rows(s.store, s.key, sid))
  {
    var h, rows := s.mem.room.history, Rows(s.store, s.key, sid);
    var part := StoredPart(h, s.store, s.key, sid);
    PartMembers(h, s.store, s.key, sid);
    PartIncreasing(h, s.store, s.key, sid);
    assert Mirrors(s.store, s.key, sid, part) by { PartMirrors(s, sid); }
    ReloadKeepsOrderIff(s.store, s.key, sid, part);
    forall i | 0 <= i < |part| ensures rows[i] == Reloaded(part[i]) {
      assert part[i] in h;
      RowMatches(s, sid, part[i], rows[i].eventID);
    }
  }

  lemma PartMirrors(s: State, sid: string)
    requires InSync(s, sid) && WF(s)
    ensures Mirrors(s.store, s.key, sid, StoredPart(s.mem.room.history, s.store, s.key, sid))
  {
    var h := s.mem.room.history;
    var part := StoredPart(h, s.store, s.key, sid);
    PartMembers(h, s.store, s.key, sid);
    forall id | (s.key, sid, id) in s.store.events ensures exists i :: 0 <= i < |part| && part[i].eventID == id {
      var j := EntryOf(s, sid, id);
      assert h[j] in part;
      var i :| 0 <= i < |part| && part[i] == h[j];
    }
    forall i | 0 <= i < |part| ensures (s.key, sid, part[i].eventID) in s.store.events {
      assert part[i] in part;
    }
  }

  /** The entry a stored row belongs to. */
  lemma EntryOf(s: State, sid: string, id: string) returns (j: nat)
    requires InSync(s, sid) && WF(s) && (s.key, sid, id) in s.store.events
    ensures j < |s.mem.room.history| && s.mem.room.history[j].eventID == id
    ensures s.mem.room.history[j].raw == s.store.events[(s.key, sid, id)].raw
  {
    var h, k := s.mem.room.history, (s.key, sid, id);
    assert FaithfulEvent(FromRow(k.1, k.2, s.store.events[k]));
    j :| 0 <= j < |h| && h[j].raw == s.store.events[k].raw;
    RawIdentifies(h, j, h[j].raw);
  }

  lemma RowMatches(s: State, sid: string, ev: RoomEvent, id: string)
    requires InSync(s, sid) && WF(s) && ev in s.mem.room.history && ev.eventID == id
    requires (s.key, sid, id) in s.store.events
    ensures FromRow(sid, id, s.store.events[(s.key, sid, id)]) == Reloaded(ev)
  {
    var h, k := s.mem.room.history, (s.key, sid, id);
    assert FaithfulEvent(FromRow(k.1, k.2, s.store.events[k])) && s.store.events[k].typ == Encrypted;
    var j := EntryOf(s, sid, id);
    var i :| 0 <= i < |h| && h[i] == ev;
    Irreflexive(id);
    assert i == j;
    assert FaithfulEvent(h[i]);
  }

  lemma StoredWhenQuiescent(s: State, sid: string, i: nat)
    requires InSync(s, sid) && WF(s) && Quiescent(s.mem) && i < |s.mem.room.history|
    ensures (s.key, sid, s.mem.room.history[i].eventID) in s.store.events
  {
    var h, ts := s.mem.room.history, s.mem.tasks;
    RawIdentifies(h, i, h[i].raw);
    assert EntryCovered(s, sid, h[i]);
    forall j | 0 <= j < |ts| && ts[j].PersistEvent? ensures ts[j].raw != h[i].raw {
      assert FaithfulTask(ts[j]) && IsNoOp(ts[j]);
    }
  }

  lemma ReloadedAfter(h: seq<RoomEvent>, h': seq<RoomEvent>, cursor: string)
    requires IsReload(h, h')
    ensures IsReload(After(h, cursor), After(h', cursor))
  {
    assert Ids(h') == Ids(h);
    AfterStartByIds(h', h, cursor);
  }

  /** The process dies and the next host's registration restores the room. */
  function Restarted(s: State): State {
    Apply(Apply(s, DoCrash), DoHydrate(true))
  }

  /** At any moment, what a restart brings back is what is stored. */
  lemma RestartReloads(t: State, sid: string)
    requires InSync(t, sid) && WF(t)
    ensures IsReload(StoredPart(t.mem.room.history, t.store, t.key, sid), Restarted(t).mem.room.history)
    ensures Restarted(t).mem.room.sessionID == sid <==> t.key in t.store.rooms
  {
    RestartedRoom(t, sid);
    SyncedRows(t, sid);
    if t.key !in t.store.rooms { NoRows(t.store, t.key, sid); }
  }

  predicate AllStored(h: seq<RoomEvent>, t: Tables, key: Key, sid: string) {
    forall i :: 0 <= i < |h| ==> IsStored(t, key, sid, h[i])
  }

  lemma ReloadWholeIff(h: seq<RoomEvent>, h': seq<RoomEvent>, t: Tables, key: Key, sid: string)
    requires IsReload(StoredPart(h, t, key, sid), h')
    ensures IsReload(h, h') <==> AllStored(h, t, key, sid)
  {
    var part := StoredPart(h, t, key, sid);
    if AllStored(h, t, key, sid) {
      PartWhole(h, t, key, sid);
    } else {
      PartMembers(h, t, key, sid);
      var i :| 0 <= i < |h| && !IsStored(t, key, sid, h[i]);
      assert i < |part| ==> part[i] in part;
    }
  }

  lemma RestartedRoom(t: State, sid: string)
    requires sid != "" && (t.key in t.store.rooms ==> t.store.rooms[t.key].session == sid)
    ensures var r := Restarted(t).mem.room;
            if t.key in t.store.rooms then r.sessionID == sid && r.history == Rows(t.store, t.key, sid)
            else r.sessionID == "" && r.history == []
  {
  }

  lemma InitSynced(key: Key, store: Tables, sid: string)
    requires FaithfulStore(store) && sid != "" && StoreInSync(store, key, sid)
    ensures Down(Init(key, store), sid) && WF(Init(key, store))
  {
  }

  /** At every moment of every orderly run, with any number of earlier restarts and whatever the order in
      which the persist tasks finished, failed or were given up: a crash and restart brings back exactly
      the entries whose rows are stored, in order. It rebuilds the history entry for entry, with the same
      replay for every cursor, exactly when every entry's row is stored, which holds once nothing is
      pending or given up. The session comes back exactly when its row was written. */
  lemma RestartIsTransparent(key: Key, store: Tables, sid: string, steps: seq<Step>, cursor: string)
    requires FaithfulStore(store) && sid != "" && StoreInSync(store, key, sid)
    requires AllOrderly(Init(key, store), steps, sid) && Run(Init(key, store), steps).mem.room.sessionID != ""
    ensures var t := Run(Init(key, store), steps);
            var h := t.mem.room.history; var r := Restarted(t).mem.room;
            && IsReload(StoredPart(h, t.store, key, sid), r.history)
            && (IsReload(h, r.history) <==> AllStored(h, t.store, key, sid))
            && (AllStored(h, t.store, key, sid) ==> IsReload(After(h, cursor), After(r.history, cursor)))
            && (Quiescent(t.mem) ==> AllStored(h, t.store, key, sid))
            && (r.sessionID == t.mem.room.sessionID <==> key in t.store.rooms)
  {
    var t := Run(Init(key, store), steps);
    InitSynced(key, store, sid);
    RunSynced(Init(key, store), steps, sid);
    KeyAlways(Init(key, store), steps);
    var h, h' := t.mem.room.history, Restarted(t).mem.room.history;
    RestartReloads(t, sid);
    ReloadWholeIff(h, h', t.store, key, sid);
    if AllStored(h, t.store, key, sid) { ReloadedAfter(h, h', cursor); }
    if Quiescent(t.mem) { QuiescentStored(t, sid); }
  }

  lemma QuiescentStored(s: State, sid: string)
    requires InSync(s, sid) && WF(s) && Quiescent(s.mem)
    ensures AllStored(s.mem.room.history, s.store, s.key, sid)
  {
    forall i | 0 <= i < |s.mem.room.history| ensures IsStored(s.store, s.key, sid, s.mem.room.history[i]) {
      StoredWhenQuiescent(s, sid, i);
    }
  }

  // ---- The history as one log across restarts ----

  function Raws(h: seq<RoomEvent>): (raws: seq<Raw>)
    ensures |raws| == |h| && forall i :: 0 <= i < |h| ==> raws[i] == h[i].raw
  {
    seq(|h|, i requires 0 <= i < |h| => h[i].raw)
  }

  /** The session's events: in memory while the room is up, else in the store. */
  function Log(s: State, sid: string): seq<Raw> {
    if s.mem.room.sessionID != "" then Raws(s.mem.room.history) else Raws(Rows(s.store, s.key, sid))
  }

  /** The event a step brings, as it is forwarded. */
  function ForwardedBy(s: State, step: Step): seq<Raw> {
    match step
    case DoBroadcast(p, msg) =>
      if msg.typ == Encrypted && IsServer(s.mem, p) && msg.eventID != ""
      then [Json(Stamp(msg, Bind(s.mem.room, msg.sessionID, msg.epoch, false)))] else []
    case DoClientSend(p, raw) =>
      if raw.msg.typ == Encrypted && Running(s.mem, p, Client) && raw.msg.eventID != "" then [raw] else []
    case _ => []
  }

  function Forwarded(s: State, steps: seq<Step>): seq<Raw> {
    if steps == [] then []
    else Forwarded(s, steps[..|steps| - 1]) + ForwardedBy(Run(s, steps[..|steps| - 1]), steps[|steps| - 1])
  }

  lemma RawsGrow(h: seq<RoomEvent>, added: seq<RoomEvent>)
    ensures Raws(h + added) == Raws(h) + Raws(added)
  {
  }

  lemma RecordLogs(m: Memory, p: PeerId, msg: Message)
    requires msg.eventID == "" || Newest(m.room.history, msg.eventID)
    ensures Raws(Recorded(m, p, Json(msg)).room.history) ==
            Raws(m.room.history) + if msg.eventID != "" then [Json(msg)] else []
  {
    if msg.eventID != "" {
      var ev := EventOf(Json(msg), Encrypted);
      NewestIsNew(m.room.history, msg.eventID);
      RawsGrow(m.room.history, [ev]);
      assert Raws([ev]) == [Json(msg)];
    }
  }

  lemma UpBroadcastLogs(s: State, p: PeerId, msg: Message, sid: string)
    requires InSync(s, sid) && IsServer(s.mem, p) && Orderly(s, DoBroadcast(p, msg), sid) && msg.typ == Encrypted
    ensures Log(Apply(s, DoBroadcast(p, msg)), sid) == Log(s, sid) + ForwardedBy(s, DoBroadcast(p, msg))
  {
    BroadcastRecords(s.mem, p, msg);
    RecordLogs(s.mem, p, Stamp(msg, s.mem.room));
  }

  lemma UpClientLogs(s: State, p: PeerId, raw: Raw, sid: string)
    requires InSync(s, sid) && Running(s.mem, p, Client) && Orderly(s, DoClientSend(p, raw), sid)
    requires raw.msg.typ == Encrypted
    ensures Log(Apply(s, DoClientSend(p, raw)), sid) == Log(s, sid) + ForwardedBy(s, DoClientSend(p, raw))
  {
    if raw.msg.eventID != "" {
      var ev := EventOf(raw, ClientEncrypted);
      NewestIsNew(s.mem.room.history, raw.msg.eventID);
      RawsGrow(s.mem.room.history, [ev]);
      assert Raws([ev]) == [raw];
    }
  }

  lemma UpQuietLogs(s: State, step: Step, sid: string)
    requires InSync(s, sid) && Orderly(s, step, sid)
    requires !step.DoBroadcast? && !step.DoClientSend? && !step.DoCrash?
    ensures Log(Apply(s, step), sid) == Log(s, sid)
  {
    if !step.DoActivate? && !step.DoHydrate? { QuietStep(s, step); }
  }

  lemma UpLogs(s: State, step: Step, sid: string)
    requires InSync(s, sid) && Orderly(s, step, sid) && !step.DoCrash?
    ensures Log(Apply(s, step), sid) == Log(s, sid) + ForwardedBy(s, step)
  {
    match step
    case DoBroadcast(p, msg) => if IsServer(s.mem, p) && msg.typ == Encrypted { UpBroadcastLogs(s, p, msg, sid); }
    case DoClientSend(p, raw) =>
      if Running(s.mem, p, Client) && raw.msg.typ == Encrypted { UpClientLogs(s, p, raw, sid); }
    case _ => UpQuietLogs(s, step, sid);
  }

  lemma SameRaws(h: seq<RoomEvent>, h': seq<RoomEvent>)
    requires IsReload(h, h')
    ensures Raws(h') == Raws(h)
  {
  }

  /** What a log keeps when only its stored events survive. */
  function Kept(log: seq<Raw>, t: Tables, key: Key, sid: string): seq<Raw> {
    if log == [] then []
    else
      var before, last := Kept(log[..|log| - 1], t, key, sid), log[|log| - 1];
      if (key, sid, last.msg.eventID) in t.events then before + [last] else before
  }

  lemma {:induction false} KeptIsPart(h: seq<RoomEvent>, t: Tables, key: Key, sid: string)
    requires FaithfulHistory(h)
    ensures Kept(Raws(h), t, key, sid) == Raws(StoredPart(h, t, key, sid))
  {
    if h != [] {
      var init, last := h[..|h| - 1], h[|h| - 1];
      KeptIsPart(init, t, key, sid);
      assert Raws(h)[..|h| - 1] == Raws(init);
      assert FaithfulEvent(last) && Raws([last]) == [last.raw];
      RawsGrow(StoredPart(init, t, key, sid), [last]);
    }
  }

  lemma {:induction false} KeptWhole(log: seq<Raw>, t: Tables, key: Key, sid: string)
    requires forall i :: 0 <= i < |log| ==> (key, sid, log[i].msg.eventID) in t.events
    ensures Kept(log, t, key, sid) == log
  {
    if log != [] {
      KeptWhole(log[..|log| - 1], t, key, sid);
      assert log == log[..|log| - 1] + [log[|log| - 1]];
    }
  }

  lemma UpCrashLogs(s: State, sid: string)
    requires InSync(s, sid) && WF(s)
    ensures Log(Apply(s, DoCrash), sid) == Kept(Log(s, sid), s.store, s.key, sid)
  {
    SyncedRows(s, sid);
    CrashKeeps(s, sid);
  }

  lemma CrashKeeps(s: State, sid: string)
    requires s.mem.room.sessionID != "" && FaithfulHistory(s.mem.room.history)
    requires IsReload(StoredPart(s.mem.room.history, s.store, s.key, sid), Rows(s.store, s.key, sid))
    ensures Log(Apply(s, DoCrash), sid) == Kept(Log(s, sid), s.store, s.key, sid)
  {
    CrashLeavesRows(s, sid);
    KeptIsPart(s.mem.room.history, s.store, s.key, sid);
    SameRaws(StoredPart(s.mem.room.history, s.store, s.key, sid), Rows(s.store, s.key, sid));
  }

  lemma CrashLeavesRows(s: State, sid: string)
    ensures Log(Apply(s, DoCrash), sid) == Raws(Rows(s.store, s.key, sid))
  {
  }

  lemma DownCrashLogs(s: State, sid: string)
    requires Down(s, sid) && WF(s)
    ensures Log(Apply(s, DoCrash), sid) == Kept(Log(s, sid), s.store, s.key, sid)
  {
    SameRows(s, Apply(s, DoCrash), sid);
    var rows := Rows(s.store, s.key, sid);
    forall i | 0 <= i < |rows| ensures (s.key, sid, Raws(rows)[i].msg.eventID) in s.store.events {
      var k := (s.key, sid, rows[i].eventID);
      assert k in s.store.events && FaithfulEvent(FromRow(k.1, k.2, s.store.events[k]));
    }
    KeptWhole(Raws(rows), s.store, s.key, sid);
  }

  lemma NoRows(t: Tables, key: Key, sid: string)
    requires StoreInSync(t, key, sid) && key !in t.rooms
    ensures Rows(t, key, sid) == []
  {
    var rows := Rows(t, key, sid);
    assert |rows| > 0 ==> (key, sid, rows[0].eventID) in t.events;
  }

  lemma DownBroadcastLogs(s: State, p: PeerId, msg: Message, sid: string)
    requires Down(s, sid) && IsServer(s.mem, p) && Orderly(s, DoBroadcast(p, msg), sid) && msg.typ == Encrypted
    ensures Log(Apply(s, DoBroadcast(p, msg)), sid) == Log(s, sid) + ForwardedBy(s, DoBroadcast(p, msg))
  {
    if msg.sessionID != "" {
      var r := Bind(s.mem.room, msg.sessionID, msg.epoch, false);
      NoRows(s.store, s.key, sid);
      RecordLogs(s.mem.(room := r), p, Stamp(msg, r));
    }
  }

  /** A room without rows is bound without events. */
  lemma DownActivateLogs(s: State, p: PeerId, msg: Message, meta: Meta, replace: bool, sid: string)
    requires Down(s, sid) && IsServer(s.mem, p) && msg.sessionID == sid && s.key !in s.store.rooms
    ensures Log(s.(mem := Activate(s.mem, p, msg, meta, replace)), sid) == Log(s, sid)
  {
    NoRows(s.store, s.key, sid);
  }

  lemma SameRows(s: State, s': State, sid: string)
    requires s'.store.events == s.store.events && s'.key == s.key
    requires s'.mem.room.sessionID == s.mem.room.sessionID == ""
    ensures Log(s', sid) == Log(s, sid)
  {
    assert EventIds(s'.store, s.key, sid) == EventIds(s.store, s.key, sid);
    assert Rows(s'.store, s.key, sid) == Rows(s.store, s.key, sid);
  }

  /** The first use of a room without rows. */
  lemma DownUseLogs(s: State, step: Step, sid: string)
    requires Down(s, sid) && Orderly(s, step, sid) && (step.DoBroadcast? || step.DoClientSend? || step.DoActivate?)
    ensures Log(Apply(s, step), sid) == Log(s, sid) + ForwardedBy(s, step)
  {
    match step
    case DoBroadcast(p, msg) => if IsServer(s.mem, p) && msg.typ == Encrypted { DownBroadcastLogs(s, p, msg, sid); }
    case DoClientSend(p, raw) =>
    case DoActivate(p, msg, dataSession, meta, replace) =>
      if IsServer(s.mem, p) && msg.typ == ActiveSession && Named(msg, dataSession).sessionID != "" {
        DownActivateLogs(s, p, Named(msg, dataSession), meta, replace, sid);
      }
  }

  lemma DownLogs(s: State, step: Step, sid: string)
    requires Down(s, sid) && Orderly(s, step, sid) && !step.DoCrash?
    ensures Log(Apply(s, step), sid) == Log(s, sid) + ForwardedBy(s, step)
  {
    if step.DoBroadcast? || step.DoClientSend? || step.DoActivate? {
      DownUseLogs(s, step, sid);
    } else if step.DoHydrate? {
      if step.loads { DownHydrate(s, sid); }
    } else if step.DoCleanup? {
      CleanupKeepsRows(s.store, s.key, sid, step.cutoff);
    } else {
      DownQuietLogs(s, step, sid);
    }
  }

  lemma DownQuietLogs(s: State, step: Step, sid: string)
    requires Down(s, sid) && Orderly(s, step, sid) && !Writes(step) && !step.DoCleanup?
    ensures Log(Apply(s, step), sid) == Log(s, sid)
  {
    if step.DoTask? {
      DownTask(s, step, sid);
    } else {
      DownQuiet(s, step, sid);
    }
    StepKey(s, step);
    SameRows(s, Apply(s, step), sid);
  }

  /** A crash keeps what is stored; every other step adds what it forwards. */
  function LogAfter(log: seq<Raw>, s: State, step: Step, sid: string): seq<Raw> {
    if step.DoCrash? then Kept(log, s.store, s.key, sid) else log + ForwardedBy(s, step)
  }

  /** What a session's log should be after a run. */
  function Surviving(s: State, steps: seq<Step>, sid: string): seq<Raw> {
    if steps == [] then Log(s, sid)
    else
      var before := steps[..|steps| - 1];
      LogAfter(Surviving(s, before, sid), Run(s, before), steps[|steps| - 1], sid)
  }

  lemma StepLogs(s: State, step: Step, sid: string)
    requires Synced(s, sid) && WF(s) && Orderly(s, step, sid)
    ensures Log(Apply(s, step), sid) == LogAfter(Log(s, sid), s, step, sid)
  {
    if Down(s, sid) {
      if step.DoCrash? { DownCrashLogs(s, sid); } else { DownLogs(s, step, sid); }
    } else {
      if step.DoCrash? { UpCrashLogs(s, sid); } else { UpLogs(s, step, sid); }
    }
  }

  lemma {:induction false} RunLogs(s: State, steps: seq<Step>, sid: string)
    requires Synced(s, sid) && WF(s) && AllOrderly(s, steps, sid)
    ensures Log(Run(s, steps), sid) == Surviving(s, steps, sid)
  {
    if steps != [] {
      RunLogs(s, steps[..|steps| - 1], sid);
      RunSynced(s, steps[..|steps| - 1], sid);
      StepLogs(Run(s, steps[..|steps| - 1]), steps[|steps| - 1], sid);
    }
  }

  /** Across any number of crashes, at whatever moments, and restores of an orderly run: the session's
      history is what the store held at the start and every event forwarded since, less exactly what some
      crash found unstored; in memory whenever the room is up, in the store whenever it is not. */
  lemma HistorySurvivesRestarts(key: Key, store: Tables, sid: string, steps: seq<Step>)
    requires FaithfulStore(store) && sid != "" && StoreInSync(store, key, sid)
    requires AllOrderly(Init(key, store), steps, sid)
    ensures var t := Run(Init(key, store), steps); var all := Surviving(Init(key, store), steps, sid);
            if t.mem.room.sessionID != "" then Raws(t.mem.room.history) == all else Raws(Rows(t.store, key, sid)) == all
  {
    InitSynced(key, store, sid);
    RunLogs(Init(key, store), steps, sid);
    KeyAlways(Init(key, store), steps);
  }

  /** Every crash of the run finds nothing pending or given up. */
  predicate QuietCrashes(s: State, steps: seq<Step>) {
    steps == [] ||
    (QuietCrashes(s, steps[..|steps| - 1])
     && (steps[|steps| - 1].DoCrash? ==> Quiescent(Run(s, steps[..|steps| - 1]).mem)))
  }

  lemma DownCrashKeeps(s: State, sid: string)
    requires Down(s, sid) && WF(s)
    ensures Kept(Log(s, sid), s.store, s.key, sid) == Log(s, sid)
  {
    DownCrashLogs(s, sid);
    SameRows(s, Apply(s, DoCrash), sid);
  }

  lemma UpCrashKeeps(s: State, sid: string)
    requires InSync(s, sid) && WF(s) && Quiescent(s.mem)
    ensures Kept(Log(s, sid), s.store, s.key, sid) == Log(s, sid)
  {
    QuiescentStored(s, sid);
    KeptIsPart(s.mem.room.history, s.store, s.key, sid);
    PartWhole(s.mem.room.history, s.store, s.key, sid);
  }

  lemma QuietStepKeeps(s: State, step: Step, sid: string)
    requires Synced(s, sid) && WF(s) && (step.DoCrash? ==> Quiescent(s.mem))
    ensures LogAfter(Log(s, sid), s, step, sid) == Log(s, sid) + ForwardedBy(s, step)
  {
    if step.DoCrash? {
      if Down(s, sid) { DownCrashKeeps(s, sid); } else { UpCrashKeeps(s, sid); }
    }
  }

  lemma Regroup(a: seq<Raw>, b: seq<Raw>, c: seq<Raw>)
    ensures a + b + c == a + (b + c)
  {
  }

  /** Then nothing is lost: the log is what was there at the start followed by every event forwarded. */
  lemma {:induction false} NothingLost(s: State, steps: seq<Step>, sid: string)
    requires Synced(s, sid) && WF(s) && AllOrderly(s, steps, sid) && QuietCrashes(s, steps)
    ensures Surviving(s, steps, sid) == Log(s, sid) + Forwarded(s, steps)
  {
    if steps != [] {
      var before, step := steps[..|steps| - 1], steps[|steps| - 1];
      NothingLost(s, before, sid);
      RunLogs(s, before, sid);
      RunSynced(s, before, sid);
      QuietStepKeeps(Run(s, before), step, sid);
      Regroup(Log(s, sid), Forwarded(s, before), ForwardedBy(Run(s, before), step));
    }
  }

  // ---- Which session a restart restores ----

  /** The session the room's row names after a run: the one of the last committed event or session task,
      until the row is destroyed or the session falls out of retention. */
  function LastNamed(s: State, steps: seq<Step>): string {
    if steps == [] then LoadedRoom(s.store, s.key).sessionID
    else
      var u, named := Run(s, steps[..|steps| - 1]), LastNamed(s, steps[..|steps| - 1]);
      match steps[|steps| - 1]
      case DoTask(i, commits, _) =>
        if !commits || i >= |u.mem.tasks| then named else NamedBy(u.mem.tasks[i], named)
      case DoCleanup(cutoff) => if SessionExpired(u.store, u.key, named, cutoff) then "" else named
      case _ => named
  }

  function NamedBy(task: Task, before: string): string {
    match task
    case PersistEvent(_, msg, _, _) => if IsNoOp(task) then before else msg.sessionID
    case PersistSession(sid, _, _) => if sid == "" then before else sid
    case SaveCursor(_, _, _) => before
    case DestroyRows => ""
  }

  lemma TaskNames(t: Tables, key: Key, task: Task, now: int)
    ensures LoadedRoom(TaskStore(t, key, task, now), key).sessionID == NamedBy(task, LoadedRoom(t, key).sessionID)
  {
  }

  lemma CleanupNames(t: Tables, key: Key, cutoff: int)
    ensures var named := LoadedRoom(t, key).sessionID;
            LoadedRoom(Cleaned(t, cutoff), key).sessionID == if SessionExpired(t, key, named, cutoff) then "" else named
  {
  }

  lemma StepNames(s: State, step: Step)
    ensures var named := LoadedRoom(s.store, s.key).sessionID; var s' := Apply(s, step);
            LoadedRoom(s'.store, s'.key).sessionID ==
            match step
            case DoTask(i, commits, _) =>
              if !commits || i >= |s.mem.tasks| then named else NamedBy(s.mem.tasks[i], named)
            case DoCleanup(cutoff) => if SessionExpired(s.store, s.key, named, cutoff) then "" else named
            case _ => named
  {
    StepKey(s, step);
    if step.DoCleanup? {
      CleanupNames(s.store, s.key, step.cutoff);
    } else if step.DoTask? && step.commits {
      if step.i < |s.mem.tasks| { TaskNames(s.store, s.key, s.mem.tasks[step.i], step.now); }
    } else {
      StepStore(s, step);
    }
  }

  lemma {:induction false} StoreNames(s: State, steps: seq<Step>)
    ensures var t := Run(s, steps); LoadedRoom(t.store, t.key).sessionID == LastNamed(s, steps)
  {
    if steps != [] {
      StoreNames(s, steps[..|steps| - 1]);
      StepNames(Run(s, steps[..|steps| - 1]), steps[|steps| - 1]);
    }
  }

  /** In every run, a restart restores the room's session exactly when the last committed task that
      names a session names that one. */
  lemma RestartRestoresSessionIff(s: State, steps: seq<Step>)
    ensures var t := Run(s, steps);
            && Restarted(t).mem.room.sessionID == LastNamed(s, steps)
            && (Restarted(t).mem.room.sessionID == t.mem.room.sessionID <==>
                LastNamed(s, steps) == t.mem.room.sessionID)
  {
    StoreNames(s, steps);
    RestartedSession(Run(s, steps));
  }

  lemma RestartedSession(t: State)
    ensures Restarted(t).mem.room.sessionID == LoadedRoom(t.store, t.key).sessionID
  {
  }

  /** With the session come the epoch and the descriptive fields of the room's row. */
  lemma RestartBringsRow(t: State)
    requires t.key in t.store.rooms && t.store.rooms[t.key].session != ""
    ensures var r := Restarted(t).mem.room; var row := t.store.rooms[t.key];
            r.sessionID == row.session && r.epoch == row.epoch && r.meta == row.meta && r.restored
            && r.server.None? && r.clients == {} && r.byID == map[] && !r.serverReady && r.live && !r.expired
  {
  }

  /** It can name another: the old session's event commits after the new session's row, and a restart
      then brings the old session back although nothing was pending. */
  lemma LateCommitRevivesSession(key: Key, p: PeerId, old_: Message, new_: Message, now: int)
    requires old_.typ == Encrypted && old_.eventID != "" && new_.typ == ActiveSession
    requires old_.sessionID != "" && new_.sessionID != "" && old_.sessionID != new_.sessionID
    ensures var s := Apply(Apply(Apply(Init(key, EMPTY), DoJoinServer(p, "")), DoBroadcast(p, old_)),
                           DoActivate(p, new_, "", NO_META, false));
            var t := Apply(Apply(s, DoTask(1, true, now)), DoTask(0, true, now));
            && t.mem.tasks == [] && t.mem.room.sessionID == new_.sessionID
            && Restarted(t).mem.room.sessionID == old_.sessionID
  {
    var s0 := Apply(Init(key, EMPTY), DoJoinServer(p, ""));
    FirstOfHistory(s0, p, old_);
    var s1 := Apply(s0, DoBroadcast(p, old_));
    SecondSession(s1, p, new_);
    LateCommit(Apply(s1, DoActivate(p, new_, "", NO_META, false)), now);
  }

  lemma SecondSession(s: State, p: PeerId, msg: Message)
    requires IsServer(s.mem, p) && msg.typ == ActiveSession && msg.sessionID != ""
    ensures var t := Apply(s, DoActivate(p, msg, "", NO_META, false));
            && t.mem.room.sessionID == msg.sessionID
            && t.mem.tasks == s.mem.tasks + [PersistSession(msg.sessionID, t.mem.room.epoch, NO_META)]
  {
  }

  lemma LateCommit(s: State, now: int)
    requires |s.mem.tasks| == 2 && s.mem.tasks[0].PersistEvent? && !IsNoOp(s.mem.tasks[0])
    ensures var t := Apply(Apply(s, DoTask(1, true, now)), DoTask(0, true, now));
            && t.mem.tasks == [] && t.mem.room == s.mem.room
            && Restarted(t).mem.room.sessionID == s.mem.tasks[0].msg.sessionID
  {
    var u := Apply(s, DoTask(1, true, now));
    assert u.mem.tasks == [s.mem.tasks[0]];
    TaskNames(u.store, u.key, u.mem.tasks[0], now);
    RestartedSession(Apply(u, DoTask(0, true, now)));
  }
}
