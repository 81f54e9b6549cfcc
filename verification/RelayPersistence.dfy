/** Background persistence: nothing forwarded is silently missing from the store. */
module RelayPersistence {
  import opened Messages
  import opened History
  import opened Store
  import opened Relay
  import opened RelayMachine
  import opened RelayFrames
  import opened RelayPeers
  import opened RelayWellFormed

  // ---- What the task list and the list of given-up tasks keep ----

  /** A pending task has failed less often than the limit and belongs to a known connection. */
  predicate SaneTask(m: Memory, task: Task) {
    task.PersistEvent? ==> task.failures < MAX_PERSIST_ATTEMPTS && task.origin in m.peers
  }

  /** A task that was given up left its connection closed. */
  predicate SaneFailure(m: Memory, task: Task) {
    task.PersistEvent? ==> task.origin in m.peers && m.peers[task.origin].closed
  }

  predicate Sane(m: Memory) {
    && (forall i :: 0 <= i < |m.tasks| ==> SaneTask(m, m.tasks[i]))
    && (forall i :: 0 <= i < |m.abandoned| ==> SaneFailure(m, m.abandoned[i]))
  }

  lemma StartedSane(s: State, step: Step)
    requires !step.DoTask? && !step.DoCrash?
    ensures forall i :: 0 <= i < |Started(s, step)| ==> SaneTask(s.mem, Started(s, step)[i])
  {
  }

  lemma FailureKeepsSane(m: Memory, i: nat)
    requires Sane(m) && i < |m.tasks|
    ensures Sane(TaskFailed(m, i))
  {
    var m' := TaskFailed(m, i);
    FineFailure(m, i);
    forall j | 0 <= j < |m'.tasks| ensures SaneTask(m', m'.tasks[j]) {
      assert SaneTask(m, m.tasks[j]);
      assert j + 1 < |m.tasks| ==> SaneTask(m, m.tasks[j + 1]);
    }
    forall j | 0 <= j < |m'.abandoned| ensures SaneFailure(m', m'.abandoned[j]) {
      if j < |m.abandoned| { assert SaneFailure(m, m.abandoned[j]); } else { assert SaneTask(m, m.tasks[i]); }
    }
  }

  lemma StepKeepsSane(s: State, step: Step)
    requires Sane(s.mem)
    ensures Sane(Apply(s, step).mem)
  {
    FineStep(s, step);
    if step.DoTask? {
      if step.i < |s.mem.tasks| {
        FailureKeepsSane(s.mem, step.i);
        var ts := Without(s.mem.tasks, step.i);
        assert forall j :: 0 <= j < |ts| ==> ts[j] == s.mem.tasks[if j < step.i then j else j + 1];
      }
    } else if !step.DoCrash? {
      StartedTasks(s, step);
      StartedSane(s, step);
    }
  }

  lemma {:induction false} SaneAlways(key: Key, store: Tables, steps: seq<Step>)
    ensures Sane(Run(Init(key, store), steps).mem)
  {
    if steps != [] {
      SaneAlways(key, store, steps[..|steps| - 1]);
      StepKeepsSane(Run(Init(key, store), steps[..|steps| - 1]), steps[|steps| - 1]);
    }
  }

  // ---- What is written to a row ----

  type RowKey = (Key, string, string)

  function RowOf(key: Key, raw: Raw): RowKey { (key, raw.msg.sessionID, raw.msg.eventID) }

  predicate WritesRow(key: Key, task: Task, k: RowKey) {
    task.PersistEvent? && !IsNoOp(task) && (key, task.msg.sessionID, task.msg.eventID) == k
  }

  /** The task whose transaction the step commits, if any. */
  predicate CommitsTask(s: State, step: Step) {
    step.DoTask? && step.commits && step.i < |s.mem.tasks|
  }

  /** The bytes a step writes to a row of the event table. */
  function Commits(s: State, step: Step, k: RowKey): seq<Raw> {
    if CommitsTask(s, step) && WritesRow(s.key, s.mem.tasks[step.i], k) then [s.mem.tasks[step.i].raw] else []
  }

  /** The step destroys the room's rows, or its cleanup finds the row's session past retention. */
  predicate DeletesRow(s: State, step: Step, k: RowKey) {
    || (CommitsTask(s, step) && s.mem.tasks[step.i].DestroyRows?)
    || (step.DoCleanup? && SessionExpired(s.store, k.0, k.1, step.cutoff))
  }

  function WrittenAfter(s: State, step: Step, k: RowKey, written: seq<Raw>): seq<Raw> {
    if DeletesRow(s, step, k) then [] else written + Commits(s, step, k)
  }

  /** Everything a run wrote to a row since the row was last deleted, in order. */
  function Written(s: State, steps: seq<Step>, k: RowKey): seq<Raw> {
    if steps == [] then []
    else
      var before := steps[..|steps| - 1];
      WrittenAfter(Run(s, before), steps[|steps| - 1], k, Written(s, before, k))
  }

  /** A row that was written exists and holds what was written last. */
  predicate OnRow(t: Tables, k: RowKey, written: seq<Raw>) {
    written != [] ==> k in t.events && t.events[k].raw == written[|written| - 1]
  }

  lemma TaskOnRow(t: Tables, key: Key, task: Task, now: int, k: RowKey, written: seq<Raw>)
    requires OnRow(t, k, written) && k.0 == key && !task.DestroyRows?
    ensures OnRow(TaskStore(t, key, task, now), k, written + if WritesRow(key, task, k) then [task.raw] else [])
  {
  }

  lemma StepOnRow(s: State, step: Step, k: RowKey, written: seq<Raw>)
    requires OnRow(s.store, k, written) && k.0 == s.key
    ensures OnRow(Apply(s, step).store, k, WrittenAfter(s, step, k, written))
  {
    if CommitsTask(s, step) {
      var task := s.mem.tasks[step.i];
      if !task.DestroyRows? { TaskOnRow(s.store, s.key, task, step.now, k, written); }
    } else if !step.DoCleanup? && !(step.DoTask? && step.commits) {
      StepStore(s, step);
    }
  }

  lemma TaskRowIff(t: Tables, key: Key, task: Task, now: int, k: RowKey)
    requires k.0 == key && !task.DestroyRows?
    ensures k in TaskStore(t, key, task, now).events <==> k in t.events || WritesRow(key, task, k)
  {
  }

  lemma StepRowIff(s: State, step: Step, k: RowKey)
    requires k.0 == s.key
    ensures k in Apply(s, step).store.events <==>
            !DeletesRow(s, step, k) && (k in s.store.events || Commits(s, step, k) != [])
  {
    StoreAfter(s, step);
    if step.DoTask? && step.i < |s.mem.tasks| {
      var task := s.mem.tasks[step.i];
      if !task.DestroyRows? { TaskRowIff(s.store, s.key, task, step.now, k); }
    }
  }

  /** In every run from empty tables, an event row of the room exists exactly when it was written since it was
      last deleted, and it holds the bytes written last. */
  lemma {:induction false} RowsAreWritten(key: Key, steps: seq<Step>, k: RowKey)
    requires k.0 == key
    ensures var t := Run(Init(key, EMPTY), steps); var written := Written(Init(key, EMPTY), steps, k);
            && (k in t.store.events <==> written != [])
            && (written != [] ==> t.store.events[k].raw == written[|written| - 1])
  {
    var s0 := Init(key, EMPTY);
    if steps != [] {
      var before, step := steps[..|steps| - 1], steps[|steps| - 1];
      RowsAreWritten(key, before, k);
      KeyAlways(s0, before);
      StepRowIff(Run(s0, before), step, k);
      StepOnRow(Run(s0, before), step, k, Written(s0, before, k));
    }
  }

  // ---- What became of an event ----

  predicate Identified(raw: Raw) { raw.msg.sessionID != "" && raw.msg.eventID != "" }

  ghost predicate Pending(m: Memory, p: PeerId, raw: Raw) {
    exists n: nat :: PersistEvent(p, raw.msg, raw, n) in m.tasks
  }

  predicate GivenUp(m: Memory, p: PeerId, raw: Raw) {
    && PersistEvent(p, raw.msg, raw, 3) in m.abandoned
    && p in m.peers && m.peers[p].closed
  }

  /** The event was written to its row, which exists and holds what was written last; or it is waiting
      to be written; or it was given up after exactly three attempts and its connection closed. */
  ghost predicate Accounted(s: State, p: PeerId, raw: Raw, written: seq<Raw>) {
    || (raw in written && RowOf(s.key, raw) in s.store.events
        && s.store.events[RowOf(s.key, raw)].raw == written[|written| - 1])
    || Pending(s.mem, p, raw)
    || GivenUp(s.mem, p, raw)
  }

  /** The step takes the last trace of an event: a crash before it was written or given up, or the
      deletion of its row when it is neither pending nor given up. */
  ghost predicate Loses(s: State, step: Step, p: PeerId, raw: Raw, written: seq<Raw>) {
    || (step.DoCrash? && raw !in written && !GivenUp(s.mem, p, raw))
    || (DeletesRow(s, step, RowOf(s.key, raw)) && !Pending(s.mem, p, raw) && !GivenUp(s.mem, p, raw))
  }

  /** The connection forwards the same bytes again, or a task writes them. */
  predicate Renews(s: State, step: Step, p: PeerId, raw: Raw) {
    PersistEvent(p, raw.msg, raw, 0) in Started(s, step) || raw in Commits(s, step, RowOf(s.key, raw))
  }

  /** Some step of the run lost the event, and none has renewed it since. */
  ghost predicate Gone(s: State, steps: seq<Step>, p: PeerId, raw: Raw) {
    && steps != []
    && var before, step := steps[..|steps| - 1], steps[|steps| - 1];
       var u := Run(s, before);
       && !Renews(u, step, p, raw)
       && (Gone(s, before, p, raw) || Loses(u, step, p, raw, Written(s, before, RowOf(s.key, raw))))
  }

  lemma GivenUpIff(m: Memory, p: PeerId, raw: Raw)
    requires Sane(m)
    ensures GivenUp(m, p, raw) <==> PersistEvent(p, raw.msg, raw, MAX_PERSIST_ATTEMPTS) in m.abandoned
  {
  }

  lemma WithoutMembers(tasks: seq<Task>, i: nat, task: Task)
    requires i < |tasks| && tasks[i] != task
    ensures task in Without(tasks, i) <==> task in tasks
  {
    var w := Without(tasks, i);
    assert tasks == tasks[..i] + [tasks[i]] + tasks[i + 1..];
  }

  /** Removing a task with other bytes leaves the event as pending as it was. */
  lemma OthersRemoved(m: Memory, m': Memory, i: nat, p: PeerId, raw: Raw)
    requires i < |m.tasks| && m'.tasks == Without(m.tasks, i)
    requires !m.tasks[i].PersistEvent? || m.tasks[i].raw != raw || m.tasks[i].msg != raw.msg || m.tasks[i].origin != p
    ensures Pending(m', p, raw) <==> Pending(m, p, raw)
  {
    forall n: nat
      ensures PersistEvent(p, raw.msg, raw, n) in m'.tasks <==> PersistEvent(p, raw.msg, raw, n) in m.tasks
    {
      WithoutMembers(m.tasks, i, PersistEvent(p, raw.msg, raw, n));
    }
  }

  predicate Owns(task: Task, p: PeerId, raw: Raw) {
    task.PersistEvent? && task.origin == p && task.raw == raw && task.msg == raw.msg
  }

  lemma CommitTraces(s: State, step: Step, p: PeerId, raw: Raw)
    requires CommitsTask(s, step) && Identified(raw)
    ensures var m' := Apply(s, step).mem;
            && (GivenUp(m', p, raw) <==> GivenUp(s.mem, p, raw))
            && (raw in Commits(s, step, RowOf(s.key, raw)) || (Pending(m', p, raw) <==> Pending(s.mem, p, raw)))
  {
    if Owns(s.mem.tasks[step.i], p, raw) {
      assert Commits(s, step, RowOf(s.key, raw))[0] == raw;
    } else {
      OthersRemoved(s.mem, Apply(s, step).mem, step.i, p, raw);
    }
  }

  lemma FailureTraces(m: Memory, i: nat, p: PeerId, raw: Raw)
    requires Sane(m) && i < |m.tasks|
    ensures var m' := TaskFailed(m, i);
            Pending(m', p, raw) || GivenUp(m', p, raw) <==> Pending(m, p, raw) || GivenUp(m, p, raw)
  {
    var m' := TaskFailed(m, i);
    FailureKeepsSane(m, i);
    GivenUpIff(m, p, raw);
    GivenUpIff(m', p, raw);
    var task := m.tasks[i];
    if Owns(task, p, raw) {
      assert SaneTask(m, task) && task == PersistEvent(p, raw.msg, raw, task.failures);
      var failed := task.(failures := task.failures + 1);
      if failed.failures < MAX_PERSIST_ATTEMPTS {
        assert m'.tasks[i] == PersistEvent(p, raw.msg, raw, failed.failures);
      } else {
        assert m'.abandoned[|m.abandoned|] == failed;
      }
    } else if |m'.tasks| < |m.tasks| {
      OthersRemoved(m, m', i, p, raw);
    } else {
      OthersUpdated(m, m', i, p, raw);
    }
  }

  lemma OthersUpdated(m: Memory, m': Memory, i: nat, p: PeerId, raw: Raw)
    requires i < |m.tasks| == |m'.tasks| && !Owns(m.tasks[i], p, raw) && !Owns(m'.tasks[i], p, raw)
    requires forall j :: 0 <= j < |m.tasks| && j != i ==> m'.tasks[j] == m.tasks[j]
    ensures Pending(m', p, raw) <==> Pending(m, p, raw)
  {
    if Pending(m, p, raw) {
      var n: nat :| PersistEvent(p, raw.msg, raw, n) in m.tasks;
      var j :| 0 <= j < |m.tasks| && m.tasks[j] == PersistEvent(p, raw.msg, raw, n);
      assert m'.tasks[j] == PersistEvent(p, raw.msg, raw, n);
    }
    if Pending(m', p, raw) {
      var n: nat :| PersistEvent(p, raw.msg, raw, n) in m'.tasks;
      var j :| 0 <= j < |m.tasks| && m'.tasks[j] == PersistEvent(p, raw.msg, raw, n);
      assert m.tasks[j] == PersistEvent(p, raw.msg, raw, n);
    }
  }

  lemma HandlerTraces(s: State, step: Step, p: PeerId, raw: Raw)
    requires Sane(s.mem) && !step.DoTask? && !step.DoCrash?
    ensures var m' := Apply(s, step).mem;
            && (GivenUp(m', p, raw) <==> GivenUp(s.mem, p, raw))
            && (Pending(m', p, raw) <==> Pending(s.mem, p, raw) || PersistEvent(p, raw.msg, raw, 0) in Started(s, step))
  {
    StepKeepsSane(s, step);
    GivenUpIff(s.mem, p, raw);
    GivenUpIff(Apply(s, step).mem, p, raw);
    StartedTasks(s, step);
    StartedFresh(s, step);
  }

  lemma StartedFresh(s: State, step: Step)
    requires !step.DoTask? && !step.DoCrash?
    ensures forall task :: task in Started(s, step) && task.PersistEvent? ==> task.failures == 0
  {
  }

  lemma CrashTraces(s: State, p: PeerId, raw: Raw)
    requires Sane(s.mem)
    ensures var m' := Apply(s, DoCrash).mem;
            !Pending(m', p, raw) && (GivenUp(m', p, raw) <==> GivenUp(s.mem, p, raw))
  {
  }

  /** One step of any kind: what is accounted for afterwards is what the step renews, and what was
      accounted for and is not lost. */
  lemma StepAccountedIff(s: State, step: Step, p: PeerId, raw: Raw, written: seq<Raw>)
    requires Sane(s.mem) && Identified(raw) && OnRow(s.store, RowOf(s.key, raw), written)
    ensures var written' := WrittenAfter(s, step, RowOf(s.key, raw), written);
            Accounted(Apply(s, step), p, raw, written') <==>
            Renews(s, step, p, raw) || (Accounted(s, p, raw, written) && !Loses(s, step, p, raw, written))
  {
    var k := RowOf(s.key, raw);
    StepOnRow(s, step, k, written);
    StepKey(s, step);
    if CommitsTask(s, step) {
      CommitTraces(s, step, p, raw);
      NoneStarted(s, step);
    } else if step.DoTask? {
      NoneStarted(s, step);
      if step.i < |s.mem.tasks| { TriedTraces(s, step, p, raw); }
    } else if step.DoCrash? {
      CrashTraces(s, p, raw);
      NoneStarted(s, step);
    } else {
      HandlerTraces(s, step, p, raw);
    }
  }

  lemma TriedTraces(s: State, step: Step, p: PeerId, raw: Raw)
    requires Sane(s.mem) && Identified(raw) && step.DoTask? && !step.commits && step.i < |s.mem.tasks|
    ensures var m' := Apply(s, step).mem;
            Pending(m', p, raw) || GivenUp(m', p, raw) <==> Pending(s.mem, p, raw) || GivenUp(s.mem, p, raw)
  {
    if IsNoOp(s.mem.tasks[step.i]) {
      OthersRemoved(s.mem, Apply(s, step).mem, step.i, p, raw);
    } else {
      FailureTraces(s.mem, step.i, p, raw);
    }
  }

  lemma NoneStarted(s: State, step: Step)
    requires step.DoTask? || step.DoCrash?
    ensures forall task :: task in Started(s, step) ==> !task.PersistEvent?
  {
  }

  /** From any point of a run at which the event is accounted for, through every step of every kind: it
      is accounted for exactly unless it is gone. */
  lemma {:induction false} RunAccountedIff(s: State, steps: seq<Step>, p: PeerId, raw: Raw)
    requires Sane(s.mem) && Identified(raw) && Accounted(s, p, raw, [])
    ensures var t := Run(s, steps); var written := Written(s, steps, RowOf(s.key, raw));
            && Sane(t.mem) && OnRow(t.store, RowOf(s.key, raw), written)
            && (Accounted(t, p, raw, written) <==> !Gone(s, steps, p, raw))
  {
    if steps != [] {
      var before, step := steps[..|steps| - 1], steps[|steps| - 1];
      RunAccountedIff(s, before, p, raw);
      KeyAlways(s, before);
      var u, written := Run(s, before), Written(s, before, RowOf(s.key, raw));
      StepKeepsSane(u, step);
      StepOnRow(u, step, RowOf(s.key, raw), written);
      StepAccountedIff(u, step, p, raw, written);
    }
  }

  /** The message a broadcast forwards live, if it is a new event with a session. */
  predicate Forwards(s: State, p: PeerId, msg: Message, wire: Raw) {
    var r := Bind(s.mem.room, msg.sessionID, msg.epoch, false);
    && IsServer(s.mem, p) && msg.typ == Encrypted && msg.eventID != "" && IsNew(r.history, msg.eventID)
    && wire == Json(Stamp(msg, r)) && wire.msg.sessionID != ""
  }

  lemma ForwardingIsPending(s: State, p: PeerId, msg: Message, wire: Raw)
    requires Forwards(s, p, msg, wire)
    ensures Pending(Apply(s, DoBroadcast(p, msg)).mem, p, wire)
  {
    StartedTasks(s, DoBroadcast(p, msg));
    assert Apply(s, DoBroadcast(p, msg)).mem.tasks[|s.mem.tasks|] == PersistEvent(p, wire.msg, wire, 0);
  }

  /** For every event forwarded live and every continuation whatsoever, with crashes, retention cleanup
      and destruction of the rows: the event is in its row, pending, or reported with its host closed
      after exactly three failed attempts, exactly unless a crash found it unwritten or its row was
      deleted, with no renewal since. */
  lemma NoSilentGap(key: Key, store: Tables, past: seq<Step>, p: PeerId, msg: Message, wire: Raw, steps: seq<Step>)
    requires Forwards(Run(Init(key, store), past), p, msg, wire)
    ensures var s := Apply(Run(Init(key, store), past), DoBroadcast(p, msg));
            Accounted(Run(s, steps), p, wire, Written(s, steps, RowOf(key, wire))) <==> !Gone(s, steps, p, wire)
  {
    var s := Run(Init(key, store), past);
    SaneAlways(key, store, past);
    StepKeepsSane(s, DoBroadcast(p, msg));
    ForwardingIsPending(s, p, msg, wire);
    KeyAlways(Init(key, store), past);
    StepKey(s, DoBroadcast(p, msg));
    RunAccountedIff(Apply(s, DoBroadcast(p, msg)), steps, p, wire);
  }

  // ---- Runs that keep their rows ----

  predicate NeverDeletes(s: State, steps: seq<Step>, k: RowKey) {
    steps == [] ||
    (NeverDeletes(s, steps[..|steps| - 1], k) && !DeletesRow(Run(s, steps[..|steps| - 1]), steps[|steps| - 1], k))
  }

  /** Some crash of the run found the event's persist task pending and its bytes unwritten. */
  ghost predicate CrashedPending(s: State, steps: seq<Step>, p: PeerId, raw: Raw) {
    && steps != []
    && var before, step := steps[..|steps| - 1], steps[|steps| - 1];
       || CrashedPending(s, before, p, raw)
       || (step.DoCrash? && Pending(Run(s, before).mem, p, raw) && raw !in Written(s, before, RowOf(s.key, raw)))
  }

  lemma {:induction false} OnlyCrashesLose(s: State, steps: seq<Step>, p: PeerId, raw: Raw)
    requires Sane(s.mem) && Identified(raw) && Accounted(s, p, raw, [])
    requires NeverDeletes(s, steps, RowOf(s.key, raw)) && !CrashedPending(s, steps, p, raw)
    ensures !Gone(s, steps, p, raw)
  {
    if steps != [] {
      var before := steps[..|steps| - 1];
      OnlyCrashesLose(s, before, p, raw);
      RunAccountedIff(s, before, p, raw);
      KeyAlways(s, before);
    }
  }

  /** While no row of the session is deleted, an event forwarded live is always in the store, pending or
      reported, unless some crash found it still pending. */
  lemma GapOnlyByCrash(key: Key, store: Tables, past: seq<Step>, p: PeerId, msg: Message, wire: Raw, steps: seq<Step>)
    requires Forwards(Run(Init(key, store), past), p, msg, wire)
    requires var s := Apply(Run(Init(key, store), past), DoBroadcast(p, msg)); NeverDeletes(s, steps, RowOf(key, wire))
    ensures var s := Apply(Run(Init(key, store), past), DoBroadcast(p, msg));
            || Accounted(Run(s, steps), p, wire, Written(s, steps, RowOf(key, wire)))
            || CrashedPending(s, steps, p, wire)
  {
    var u := Run(Init(key, store), past);
    var s := Apply(u, DoBroadcast(p, msg));
    NoSilentGap(key, store, past, p, msg, wire, steps);
    SaneAlways(key, store, past);
    StepKeepsSane(u, DoBroadcast(p, msg));
    ForwardingIsPending(u, p, msg, wire);
    KeyAlways(Init(key, store), past);
    StepKey(u, DoBroadcast(p, msg));
    if !CrashedPending(s, steps, p, wire) { OnlyCrashesLose(s, steps, p, wire); }
  }

  // ---- Two short runs ----

  /** A broadcast into an empty history. */
  lemma FirstOfHistory(s: State, p: PeerId, msg: Message)
    requires IsServer(s.mem, p) && msg.typ == Encrypted && msg.eventID != "" && msg.sessionID != ""
    requires Bind(s.mem.room, msg.sessionID, msg.epoch, false).history == []
    ensures var t := Apply(s, DoBroadcast(p, msg));
            var wire := Json(Stamp(msg, Bind(s.mem.room, msg.sessionID, msg.epoch, false)));
            && Forwards(s, p, msg, wire) && IsServer(t.mem, p) && t.store == s.store && t.key == s.key
            && t.mem.room.history == [EventOf(wire, Encrypted)]
            && t.mem.tasks == s.mem.tasks + [PersistEvent(p, wire.msg, wire, 0)]
  {
  }

  /** An event forwarded live and then nowhere: the process dies before its task ran. */
  lemma CrashLosesForwarded(key: Key, p: PeerId, msg: Message)
    requires msg.typ == Encrypted && msg.eventID != "" && msg.sessionID != ""
    ensures var s := Apply(Init(key, EMPTY), DoJoinServer(p, ""));
            var wire := Json(Stamp(msg, Bind(s.mem.room, msg.sessionID, msg.epoch, false)));
            var t := Apply(Apply(s, DoBroadcast(p, msg)), DoCrash);
            && Forwards(s, p, msg, wire)
            && t.store.events == map[] && !Pending(t.mem, p, wire) && !GivenUp(t.mem, p, wire)
  {
    var s := Apply(Init(key, EMPTY), DoJoinServer(p, ""));
    FirstOfHistory(s, p, msg);
  }

  lemma ReplacedHistory(s: State, p: PeerId, msg: Message)
    requires IsServer(s.mem, p) && msg.typ == ActiveSession && msg.sessionID != ""
    ensures var t := Apply(s, DoActivate(p, msg, "", NO_META, true));
            && IsServer(t.mem, p) && t.mem.room.history == [] && t.store == s.store && t.key == s.key
            && t.mem.tasks == s.mem.tasks + [PersistSession(msg.sessionID, t.mem.room.epoch, NO_META)]
  {
  }

  lemma CommitLastThenFirst(s: State, now: int)
    requires |s.mem.tasks| == 3 && s.mem.tasks[0].PersistEvent? && !IsNoOp(s.mem.tasks[0])
    ensures var t := Apply(Apply(s, DoTask(2, true, now)), DoTask(0, true, now));
            var k := (s.key, s.mem.tasks[0].msg.sessionID, s.mem.tasks[0].msg.eventID);
            && t.mem.room == s.mem.room
            && k in t.store.events && t.store.events[k].raw == s.mem.tasks[0].raw
  {
  }

  /** Tasks finish in any order, so a row can end up with older bytes than the history holds: the event is
      sent, the history is replaced, the event is sent again with other contents, and the first task
      commits last. */
  lemma LateCommitOverwrites(key: Key, p: PeerId, first: Message, second: Message, replacing: Message, now: int)
    requires first.typ == second.typ == Encrypted && replacing.typ == ActiveSession
    requires first.eventID == second.eventID != "" && first.sessionID == second.sessionID == replacing.sessionID != ""
    ensures var s := Apply(Apply(Init(key, EMPTY), DoJoinServer(p, "")), DoBroadcast(p, first));
            var u := Apply(Apply(s, DoActivate(p, replacing, "", NO_META, true)), DoBroadcast(p, second));
            var t := Apply(Apply(u, DoTask(2, true, now)), DoTask(0, true, now));
            var k := (key, first.sessionID, first.eventID);
            && |t.mem.room.history| == 1 && t.mem.room.history[0].raw.msg.body == second.body
            && k in t.store.events && t.store.events[k].raw.msg.body == first.body
  {
    var s0 := Apply(Init(key, EMPTY), DoJoinServer(p, ""));
    FirstOfHistory(s0, p, first);
    var s := Apply(s0, DoBroadcast(p, first));
    ReplacedHistory(s, p, replacing);
    var v := Apply(s, DoActivate(p, replacing, "", NO_META, true));
    FirstOfHistory(v, p, second);
    CommitLastThenFirst(Apply(v, DoBroadcast(p, second)), now);
  }
}
