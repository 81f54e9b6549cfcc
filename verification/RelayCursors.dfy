/** Client cursors across sessions: where a stored cursor comes from, and what it hides from a replay. */
module RelayCursors {
  import opened Messages
  import opened History
  import opened Lex
  import opened Store
  import opened Relay
  import opened RelayMachine
  import opened RelayFrames
  import opened RelayPeers
  import opened RelayWellFormed
  import opened RelayResume
  import opened RelayDelivery

  // ---- Where a stored cursor comes from ----

  /** The step is an acknowledgement by the client id's holder, made while the room was in the session. */
  predicate AcksNow(s: State, step: Step, client: string, sid: string, event: string) {
    && step.DoAck? && step.eventID == event != "" && Running(s.mem, step.p, Client) && HoldsID(s.mem, step.p)
    && s.mem.peers[step.p].clientID == client && s.mem.room.sessionID == sid
  }

  predicate Acked(s: State, steps: seq<Step>, client: string, sid: string, event: string) {
    && steps != []
    && (Acked(s, steps[..|steps| - 1], client, sid, event)
        || AcksNow(Run(s, steps[..|steps| - 1]), steps[|steps| - 1], client, sid, event))
  }

  predicate TaskTraced(s: State, steps: seq<Step>, task: Task) {
    task.SaveCursor? ==> Acked(s, steps, task.client, task.sid, task.event)
  }

  predicate RowTraced(s: State, steps: seq<Step>, k: (Key, string), row: CursorRow) {
    (k in s.store.cursors && s.store.cursors[k] == row) || Acked(s, steps, k.1, row.session, row.acked)
  }

  ghost predicate Traced(s: State, steps: seq<Step>) {
    var t := Run(s, steps);
    && (forall i :: 0 <= i < |t.mem.tasks| ==> TaskTraced(s, steps, t.mem.tasks[i]))
    && (forall k :: k in t.store.cursors && k.0 == s.key ==> RowTraced(s, steps, k, t.store.cursors[k]))
  }

  lemma AckStarts(s: State, step: Step)
    requires !step.DoTask? && !step.DoCrash?
    ensures forall i :: 0 <= i < |Started(s, step)| && Started(s, step)[i].SaveCursor? ==>
              var task := Started(s, step)[i]; AcksNow(s, step, task.client, task.sid, task.event)
  {
  }

  lemma CursorRowAfter(s: State, step: Step, k: (Key, string))
    requires k in Apply(s, step).store.cursors && k.0 == s.key
    ensures var row := Apply(s, step).store.cursors[k];
            || (k in s.store.cursors && s.store.cursors[k] == row)
            || (step.DoTask? && step.i < |s.mem.tasks|
                && s.mem.tasks[step.i] == SaveCursor(k.1, row.session, row.acked))
  {
    if !(step.DoTask? && step.commits) && !step.DoCleanup? { StepStore(s, step); }
  }

  /** A save task is one that was there before, or comes from an acknowledgement. */
  lemma SaveTasksAfter(s: State, step: Step, i: nat)
    requires i < |Apply(s, step).mem.tasks| && Apply(s, step).mem.tasks[i].SaveCursor?
    ensures var task := Apply(s, step).mem.tasks[i];
            task in s.mem.tasks || AcksNow(s, step, task.client, task.sid, task.event)
  {
    if step.DoTask? {
      if step.i < |s.mem.tasks| { KeptTask(s, step, i); }
    } else if !step.DoCrash? {
      StartedTasks(s, step);
      AckStarts(s, step);
      var started := Started(s, step);
      if i >= |s.mem.tasks| { assert Apply(s, step).mem.tasks[i] == started[i - |s.mem.tasks|]; }
    }
  }

  lemma KeptTask(s: State, step: Step, i: nat)
    requires step.DoTask? && step.i < |s.mem.tasks|
    requires i < |Apply(s, step).mem.tasks| && Apply(s, step).mem.tasks[i].SaveCursor?
    ensures Apply(s, step).mem.tasks[i] in s.mem.tasks
  {
    var ts := Apply(s, step).mem.tasks;
    assert ts[i] == s.mem.tasks[i] || (i + 1 < |s.mem.tasks| && ts[i] == s.mem.tasks[i + 1]);
  }

  lemma TasksTraced(s: State, steps: seq<Step>)
    requires steps != [] && Traced(s, steps[..|steps| - 1])
    ensures var t := Run(s, steps); forall i :: 0 <= i < |t.mem.tasks| ==> TaskTraced(s, steps, t.mem.tasks[i])
  {
    var before, step := steps[..|steps| - 1], steps[|steps| - 1];
    var u, t := Run(s, before), Run(s, steps);
    forall i | 0 <= i < |t.mem.tasks| && t.mem.tasks[i].SaveCursor? ensures TaskTraced(s, steps, t.mem.tasks[i]) {
      SaveTasksAfter(u, step, i);
      assert t.mem.tasks[i] in u.mem.tasks ==> TaskTraced(s, before, t.mem.tasks[i]);
    }
  }

  /** In every run, each stored cursor is one the store began with, or the client id's holder acknowledged
      that event while the room was in the session the row names. */
  lemma {:induction false} CursorProvenance(s: State, steps: seq<Step>)
    requires forall i :: 0 <= i < |s.mem.tasks| ==> !s.mem.tasks[i].SaveCursor?
    ensures Traced(s, steps)
  {
    if steps != [] {
      var before, step := steps[..|steps| - 1], steps[|steps| - 1];
      CursorProvenance(s, before);
      TasksTraced(s, steps);
      KeyAlways(s, before);
      var u, t := Run(s, before), Run(s, steps);
      forall k | k in t.store.cursors && k.0 == s.key ensures RowTraced(s, steps, k, t.store.cursors[k]) {
        CursorRowAfter(u, step, k);
        if k in u.store.cursors && u.store.cursors[k] == t.store.cursors[k] {
          assert RowTraced(s, before, k, u.store.cursors[k]);
        } else {
          assert TaskTraced(s, before, u.mem.tasks[step.i]);
        }
      }
    }
  }

  // ---- What a cursor hides ----

  /** The entries a replay for this connection leaves out. */
  function Skipped(m: Memory, p: PeerId): seq<RoomEvent>
    requires p in m.peers
  {
    m.room.history[..AfterStart(m.room.history, m.peers[p].cursor)]
  }

  lemma SkippedIff(m: Memory, p: PeerId)
    requires p in m.peers
    ensures var c := m.peers[p].cursor;
            && (Skipped(m, p) != [] <==> c != "" && c in Ids(m.room.history))
            && m.room.history == Skipped(m, p) + After(m.room.history, c)
  {
    var c, h := m.peers[p].cursor, m.room.history;
    if c != "" && c in Ids(h) {
      var i :| 0 <= i < |h| && Ids(h)[i] == c;
      assert h[i].eventID == c;
    } else if c != "" {
      forall i | 0 <= i < |h| ensures h[i].eventID != c { assert Ids(h)[i] != c; }
    }
  }

  /** The message says it belongs to another session than the room's. */
  predicate DeclaresOther(r: Room, msg: Message) {
    msg.sessionID != "" && r.sessionID != "" && msg.sessionID != r.sessionID
  }

  /** The cursor a resume_hello goes by: the connection's own, else the stored one. */
  function HelloMark(s: State, p: PeerId, client: string): string
    requires p in s.mem.peers
  {
    if s.mem.peers[p].cursor != "" then s.mem.peers[p].cursor else LoadedCursor(s.store, s.key, client)
  }

  lemma HelloCursor(s: State, p: PeerId, msg: Message)
    requires Running(s.mem, p, Client) && msg.typ != ResumeFrom && msg.clientID != ""
    ensures var t := Apply(s, DoResume(p, msg, true));
            && t.mem.room.history == s.mem.room.history && p in t.mem.peers
            && t.mem.peers[p].cursor == if DeclaresOther(s.mem.room, msg) then "" else HelloMark(s, p, msg.clientID)
  {
  }

  /** In every reachable state, a resume_hello leaves out entries of the room's current history exactly when
      it does not declare another session and the cursor it goes by occurs in that history. That cursor is
      the connection's own if it has one, which its last resume chose or it acknowledged since; else the
      stored one, which the client id's holder acknowledged in the session the row names. Neither need be
      the room's session. */
  lemma HelloSkipsIff(key: Key, steps: seq<Step>, p: PeerId, msg: Message)
    requires Running(Run(Init(key, EMPTY), steps).mem, p, Client) && msg.typ != ResumeFrom && msg.clientID != ""
    ensures var s := Run(Init(key, EMPTY), steps); var t := Apply(s, DoResume(p, msg, true));
            var own := s.mem.peers[p].cursor; var mark := HelloMark(s, p, msg.clientID);
            && p in t.mem.peers
            && (Skipped(t.mem, p) != [] <==>
                !DeclaresOther(s.mem.room, msg) && mark != "" && mark in Ids(s.mem.room.history))
            && (own != "" ==> mark in Marks(Init(key, EMPTY), steps, p))
            && (own == "" && mark != "" ==>
                && (key, msg.clientID) in s.store.cursors
                && var row := s.store.cursors[(key, msg.clientID)];
                   row.acked == mark && Acked(Init(key, EMPTY), steps, msg.clientID, row.session, mark))
  {
    var s0 := Init(key, EMPTY);
    var s := Run(s0, steps);
    CursorProvenance(s0, steps);
    KeyAlways(s0, steps);
    if (key, msg.clientID) in s.store.cursors {
      assert RowTraced(s0, steps, (key, msg.clientID), s.store.cursors[(key, msg.clientID)]);
    }
    ConnectionCursorIsMax(key, EMPTY, steps, p);
    HelloCursor(s, p, msg);
    SkippedIff(Apply(s, DoResume(p, msg, true)).mem, p);
  }

  // ---- Resuming from an id ----

  /** A resume_from goes by the id it carries, whatever is stored or in memory, unless it declares another
      session than the room's. */
  lemma ResumeFromCursor(s: State, p: PeerId, msg: Message, loads: bool)
    requires Running(s.mem, p, Client) && msg.typ == ResumeFrom && msg.clientID != ""
    ensures var t := Apply(s, DoResume(p, msg, loads));
            && t.mem.room.history == s.mem.room.history && p in t.mem.peers
            && t.mem.peers[p].cursor == if DeclaresOther(s.mem.room, msg) then "" else msg.lastEventID
  {
  }

  /** It leaves out entries of the history exactly when it declares no other session and names one. */
  lemma ResumeFromSkipsIff(s: State, p: PeerId, msg: Message, loads: bool)
    requires Running(s.mem, p, Client) && msg.typ == ResumeFrom && msg.clientID != ""
    ensures var t := Apply(s, DoResume(p, msg, loads));
            && p in t.mem.peers
            && (Skipped(t.mem, p) != [] <==>
                !DeclaresOther(s.mem.room, msg) && msg.lastEventID != "" && msg.lastEventID in Ids(s.mem.room.history))
  {
    ResumeFromCursor(s, p, msg, loads);
    SkippedIff(Apply(s, DoResume(p, msg, loads)).mem, p);
  }

  /** The resumed connection holds its id and waits for its key, and no other connection holds the id. */
  lemma ResumeWaits(m: Memory, p: PeerId, msg: Message, loaded: string)
    requires Running(m, p, Client) && msg.clientID != ""
    ensures var m' := Resume(m, p, msg, loaded);
            && p in m'.peers && m'.peers[p].clientID == msg.clientID && HoldsID(m', p)
            && !m'.peers[p].ready && m'.peers[p].waiting && !m'.peers[p].done
            && (m'.peers[p].closed ==> m.peers[p].closed || |m.peers[p].queue| >= SEND_CAPACITY)
            && m'.room.byID - {msg.clientID} == m.room.byID - {msg.clientID}
  {
  }

  /** The id by which a resume message asks to be replayed. */
  function AskedFrom(s: State, p: PeerId, msg: Message): string
    requires p in s.mem.peers
  {
    if DeclaresOther(s.mem.room, msg) then ""
    else if msg.typ == ResumeFrom then msg.lastEventID
    else HelloMark(s, p, msg.clientID)
  }

  lemma AskedCursor(s: State, p: PeerId, msg: Message)
    requires Running(s.mem, p, Client) && msg.clientID != ""
    ensures var t := Apply(s, DoResume(p, msg, true));
            && t.mem.room.history == s.mem.room.history && p in t.mem.peers
            && t.mem.peers[p].cursor == AskedFrom(s, p, msg)
  {
    if msg.typ == ResumeFrom { ResumeFromCursor(s, p, msg, true); } else { HelloCursor(s, p, msg); }
  }

  /** In every reachable state, a resume of either kind followed by key_ready queues, unless the connection
      is lost, a prefix of the history after the id it asked from: all of it if it fits above the headroom. */
  lemma ResumeReplays(key: Key, store: Tables, past: seq<Step>, p: PeerId, msg: Message, drains: seq<nat>)
    requires FaithfulStore(store)
    requires Running(Run(Init(key, store), past).mem, p, Client) && msg.clientID != ""
    ensures var s := Run(Init(key, store), past);
            var t := Apply(s, DoResume(p, msg, true)); var u := Apply(t, DoKeyReady(p, msg.clientID, drains)).mem;
            var asked := After(s.mem.room.history, AskedFrom(s, p, msg));
            && p in t.mem.peers && p in u.peers
            && var sent := Sent(Acknowledged(t.mem, p), asked, drains);
               && (Lost(u.peers[p]) ||
                   Delivered(Stream(u.peers[p])) == Delivered(Stream(t.mem.peers[p])) + Ids(asked)[..sent])
               && (|Acknowledged(t.mem, p).queue| + |asked| <= SEND_CAPACITY - REPLAY_HEADROOM ==> sent == |asked|)
  {
    WFAlways(key, store, past);
    ReplaysFrom(Run(Init(key, store), past), p, msg, drains);
  }

  lemma ReplaysFrom(s: State, p: PeerId, msg: Message, drains: seq<nat>)
    requires WF(s) && Running(s.mem, p, Client) && msg.clientID != ""
    ensures var t := Apply(s, DoResume(p, msg, true)); var u := Apply(t, DoKeyReady(p, msg.clientID, drains)).mem;
            var asked := After(s.mem.room.history, AskedFrom(s, p, msg));
            && p in t.mem.peers && p in u.peers
            && var sent := Sent(Acknowledged(t.mem, p), asked, drains);
               && (Lost(u.peers[p]) ||
                   Delivered(Stream(u.peers[p])) == Delivered(Stream(t.mem.peers[p])) + Ids(asked)[..sent])
               && (|Acknowledged(t.mem, p).queue| + |asked| <= SEND_CAPACITY - REPLAY_HEADROOM ==> sent == |asked|)
  {
    var t := Apply(s, DoResume(p, msg, true));
    AskedCursor(s, p, msg);
    ResumeWaits(s.mem, p, msg, LoadsCursor(s, p, msg.clientID, true));
    FineStep(s, DoResume(p, msg, true));
    KeyReadyReplays(t, p, msg.clientID, drains);
  }

  lemma KeyReadyReplays(t: State, p: PeerId, id: string, drains: seq<nat>)
    requires CanFinish(t.mem, p, id) && Attached(t.mem) && FaithfulHistory(t.mem.room.history)
    ensures var u := Apply(t, DoKeyReady(p, id, drains)).mem; var backlog := After(t.mem.room.history, t.mem.peers[p].cursor);
            var sent := Sent(Acknowledged(t.mem, p), backlog, drains);
            && p in u.peers
            && (Lost(u.peers[p]) ||
                Delivered(Stream(u.peers[p])) == Delivered(Stream(t.mem.peers[p])) + Ids(backlog)[..sent])
            && (|Acknowledged(t.mem, p).queue| + |backlog| <= SEND_CAPACITY - REPLAY_HEADROOM ==> sent == |backlog|)
  {
    KeyReadyQueuesBacklog(t.mem, p, id, drains);
    ReplayHeadroom(Acknowledged(t.mem, p), After(t.mem.room.history, t.mem.peers[p].cursor), drains);
  }

  // ---- Entries that were never delivered ----

  /** None of the client id's connections was ever queued these bytes. */
  predicate NeverQueued(m: Memory, client: string, raw: Raw) {
    forall q :: q in m.peers && m.peers[q].role == Client && m.peers[q].clientID == client ==> raw !in Stream(m.peers[q])
  }

  /** In every reachable state, an entry that a connection's cursor leaves out was never queued to its client
      id exactly when none of the id's connections was ready, reading and with room when the host sent it,
      and none had it in a replay. */
  lemma LeftOutUndeliveredIff(key: Key, store: Tables, steps: seq<Step>, p: PeerId, i: nat)
    requires FaithfulStore(store) && p in Run(Init(key, store), steps).mem.peers
    requires i < |Skipped(Run(Init(key, store), steps).mem, p)|
    ensures var t := Run(Init(key, store), steps).mem;
            var client := t.peers[p].clientID; var raw := Skipped(t, p)[i].raw;
            NeverQueued(t, client, raw) <==>
            forall q :: q in t.peers && t.peers[q].role == Client && t.peers[q].clientID == client ==>
              !EverQueued(Init(key, store), steps, q, raw)
  {
    var t := Run(Init(key, store), steps).mem;
    var raw := Skipped(t, p)[i].raw;
    WFAlways(key, store, steps);
    assert FaithfulEvent(t.room.history[i]);
    forall q | q in t.peers && t.peers[q].role == Client
      ensures raw in Stream(t.peers[q]) <==> EverQueued(Init(key, store), steps, q, raw)
    {
      QueuedIff(key, store, steps, q, raw);
    }
  }

  // ---- A run in which it hides undelivered events ----

  const HOST: PeerId := 0
  const FIRST: PeerId := 1
  const SECOND: PeerId := 2

  function Event(sid: string, id: string): Message { Notice(Encrypted, sid, 1).(eventID := id) }

  function Hello(client: string): Message { Notice(ResumeHello, "", 0).(clientID := client) }

  /** The host is attached and ready and the room is in the session. */
  predicate Hosted(s: State, sid: string) {
    && IsServer(s.mem, HOST) && s.mem.room.serverReady && s.mem.room.live
    && s.mem.room.sessionID == sid && s.mem.room.epoch == 1
  }

  /** The run up to the first session's only event. */
  function Opened(key: Key, sid: string, id: string): State {
    Apply(Apply(Apply(Init(key, EMPTY), DoJoinServer(HOST, "")), DoServerReady(HOST)), DoBroadcast(HOST, Event(sid, id)))
  }

  lemma OpenedFacts(key: Key, sid: string, id: string)
    requires sid != "" && id != ""
    ensures var s := Opened(key, sid, id);
            && Hosted(s, sid) && s.key == key && s.store == EMPTY && s.mem.peers.Keys == {HOST}
            && s.mem.room.byID == map[] && s.mem.room.clients == {}
            && |s.mem.room.history| == 1 && |s.mem.tasks| == 1 && s.mem.tasks[0].PersistEvent?
  {
  }

  /** A client connects, says hello and completes its key exchange. */
  function Joined(s: State, c: PeerId, client: string): State {
    Apply(Apply(Apply(Apply(s, DoAdmit(c)), DoJoinClient(c, "")), DoResume(c, Hello(client), true)), DoKeyReady(c, "", []))
  }

  lemma AttachedFresh(s: State, c: PeerId, sid: string)
    requires Hosted(s, sid) && c !in s.mem.peers
    ensures var t := Apply(Apply(s, DoAdmit(c)), DoJoinClient(c, ""));
            && Hosted(t, sid) && c in t.mem.peers && t.mem.peers[c] == NewPeer(Client, "")
            && t.mem.peers.Keys == s.mem.peers.Keys + {c} && t.mem.room.clients == s.mem.room.clients + {c}
            && t.mem.room.byID == s.mem.room.byID && t.mem.room.history == s.mem.room.history
            && t.mem.tasks == s.mem.tasks && t.store == s.store && t.key == s.key
  {
    var u := Apply(s, DoAdmit(c));
    assert u == s.(mem := s.mem.(admitted := s.mem.admitted + {c}));
  }

  lemma SaidHello(s: State, c: PeerId, client: string, sid: string)
    requires Hosted(s, sid) && c in s.mem.peers && s.mem.peers[c] == NewPeer(Client, "")
    requires client != "" && client !in s.mem.room.byID
    ensures var t := Apply(s, DoResume(c, Hello(client), true));
            var note := Json(SessionNotice(s.mem.room, client));
            var cursor := LoadedCursor(s.store, s.key, client);
            && Hosted(t, sid) && t.mem.peers.Keys == s.mem.peers.Keys && t.mem.room.clients == s.mem.room.clients
            && t.mem.peers[c] == Peer(Client, client, false, true, cursor, [], [note], false, false)
            && t.mem.room.byID == s.mem.room.byID[client := c] && t.mem.room.history == s.mem.room.history
            && t.mem.tasks == s.mem.tasks && t.store == s.store && t.key == s.key
  {
  }

  /** The client's connection is resumed and has at most this much queued. */
  predicate Listening(s: State, c: PeerId, n: nat) {
    && Running(s.mem, c, Client) && c in s.mem.room.clients && s.mem.peers[c].ready
    && |s.mem.peers[c].queue| <= n
  }

  lemma {:induction false} ReplayBound(q: Peer, evs: seq<RoomEvent>, drains: seq<nat>)
    ensures |Replay(q, evs, drains).queue| <= |q.queue| + |evs|
    decreases |evs|
  {
    if evs != [] {
      var q' := Drained(q, if drains == [] then 0 else drains[0]);
      if |q'.queue| < SEND_CAPACITY - REPLAY_HEADROOM {
        ReplayBound(Enqueue(q', evs[0].raw), evs[1..], if drains == [] then [] else drains[1..]);
      }
    }
  }

  lemma KeyExchanged(s: State, c: PeerId, sid: string)
    requires Hosted(s, sid) && Running(s.mem, c, Client) && s.mem.peers[c].waiting && c != HOST
    ensures var t := Apply(s, DoKeyReady(c, "", []));
            && Hosted(t, sid) && t.mem.peers.Keys == s.mem.peers.Keys && t.mem.room == s.mem.room
            && t.mem.tasks == s.mem.tasks && t.store == s.store && t.key == s.key
            && t.mem.peers[c] == Replay(Acknowledged(s.mem, c), After(s.mem.room.history, s.mem.peers[c].cursor), [])
            && Running(t.mem, c, Client)
            && t.mem.peers[c].clientID == s.mem.peers[c].clientID && t.mem.peers[c].cursor == s.mem.peers[c].cursor
            && t.mem.peers[c].ready && |t.mem.peers[c].queue| <= |s.mem.peers[c].queue| + 1 + |s.mem.room.history|
  {
    ReplayAges(Acknowledged(s.mem, c), After(s.mem.room.history, s.mem.peers[c].cursor), []);
    ReplayBound(Acknowledged(s.mem, c), After(s.mem.room.history, s.mem.peers[c].cursor), []);
  }

  lemma JoinedFacts(s: State, c: PeerId, client: string, sid: string)
    requires Hosted(s, sid) && c !in s.mem.peers && client != "" && client !in s.mem.room.byID
    ensures var t := Joined(s, c, client); var cursor := LoadedCursor(s.store, s.key, client);
            && Hosted(t, sid) && t.mem.peers.Keys == s.mem.peers.Keys + {c}
            && t.mem.room.clients == s.mem.room.clients + {c} && t.mem.room.byID == s.mem.room.byID[client := c]
            && t.mem.room.history == s.mem.room.history
            && t.mem.tasks == s.mem.tasks && t.store == s.store && t.key == s.key
            && Listening(t, c, 2 + |s.mem.room.history|)
            && t.mem.peers[c].clientID == client && t.mem.peers[c].cursor == cursor
            && (After(s.mem.room.history, cursor) == [] ==> Delivered(Stream(t.mem.peers[c])) == [])
  {
    AttachedFresh(s, c, sid);
    var s2 := Apply(Apply(s, DoAdmit(c)), DoJoinClient(c, ""));
    SaidHello(s2, c, client, sid);
    var s3 := Apply(s2, DoResume(c, Hello(client), true));
    KeyExchanged(s3, c, sid);
    if After(s.mem.room.history, LoadedCursor(s.store, s.key, client)) == [] {
      NothingReplayed(s3.mem, c, Json(SessionNotice(s2.mem.room, client)));
    }
  }

  lemma NothingReplayed(m: Memory, c: PeerId, note: Raw)
    requires c in m.peers && m.peers[c].written == [] && m.peers[c].queue == [note] && !m.peers[c].done && !IsEvent(note)
    ensures Delivered(Stream(Acknowledged(m, c))) == []
  {
    var ack := Json(ResumeNotice(m.room.(epoch := AtLeastOne(m.room.epoch)), m.peers[c].clientID, m.peers[c].cursor));
    assert Stream(Acknowledged(m, c)) == [note] + [ack];
    DeliveredConcat([note], [ack]);
    DeliveredOne(note);
    DeliveredOne(ack);
  }

  /** The client acknowledges an event, the cursor is stored, and the client goes away. */
  function AckedAndGone(s: State, c: PeerId, id: string, now: int): State {
    Apply(Apply(Apply(Apply(s, DoAck(c, id)), DoTask(|s.mem.tasks|, true, now)), DoHangup(c)), DoDetach(c, false))
  }

  lemma CursorStored(s: State, c: PeerId, id: string, now: int, client: string, sid: string)
    requires Hosted(s, sid) && Running(s.mem, c, Client) && s.mem.peers[c].cursor == "" && id != "" && c != HOST
    requires s.mem.peers[c].clientID == client != "" && s.mem.room.byID == map[client := c] && s.store == EMPTY
    ensures var t := AckedAndGone(s, c, id, now);
            && Hosted(t, sid) && t.key == s.key && t.mem.peers.Keys == s.mem.peers.Keys && t.mem.room.byID == map[]
            && t.store.cursors == map[(s.key, client) := CursorRow(sid, id, now)]
  {
    var a := Apply(s, DoAck(c, id));
    assert a.mem.tasks == s.mem.tasks + [SaveCursor(client, sid, id)];
    var b := Apply(a, DoTask(|s.mem.tasks|, true, now));
    assert b.store.cursors == map[(s.key, client) := CursorRow(sid, id, now)];
    assert b.mem.peers == a.mem.peers && b.mem.room == s.mem.room;
    Departed(b, c, client, sid);
  }

  lemma Departed(s: State, c: PeerId, client: string, sid: string)
    requires Hosted(s, sid) && Running(s.mem, c, Client) && c != HOST
    requires s.mem.peers[c].clientID == client != "" && s.mem.room.byID == map[client := c]
    ensures var t := Apply(Apply(s, DoHangup(c)), DoDetach(c, false));
            && Hosted(t, sid) && t.key == s.key && t.store == s.store && t.mem.peers.Keys == s.mem.peers.Keys
            && t.mem.room.byID == map[]
  {
  }

  /** The host moves to a new session and sends two events, the second with a number used before. */
  lemma NextSession(s: State, sid: string, next: string, e0: string, e1: string)
    requires Hosted(s, sid) && next != "" && next != sid && e0 != "" && e1 != "" && e0 != e1
    ensures var t := Apply(Apply(s, DoBroadcast(HOST, Event(next, e0))), DoBroadcast(HOST, Event(next, e1)));
            && Hosted(t, next) && t.key == s.key && t.store == s.store && t.mem.peers.Keys == s.mem.peers.Keys
            && t.mem.room.byID == s.mem.room.byID && Ids(t.mem.room.history) == [e0, e1]
  {
    FirstOfNext(s, sid, next, e0);
    SecondOfNext(Apply(s, DoBroadcast(HOST, Event(next, e0))), next, e0, e1);
  }

  lemma FirstOfNext(s: State, sid: string, next: string, e0: string)
    requires Hosted(s, sid) && next != "" && next != sid && e0 != ""
    ensures var t := Apply(s, DoBroadcast(HOST, Event(next, e0)));
            && Hosted(t, next) && t.key == s.key && t.store == s.store && t.mem.peers.Keys == s.mem.peers.Keys
            && t.mem.room.byID == s.mem.room.byID && Ids(t.mem.room.history) == [e0]
  {
  }

  lemma SecondOfNext(s: State, next: string, e0: string, e1: string)
    requires Hosted(s, next) && next != "" && e1 != "" && e0 != e1 && Ids(s.mem.room.history) == [e0]
    ensures var t := Apply(s, DoBroadcast(HOST, Event(next, e1)));
            && Hosted(t, next) && t.key == s.key && t.store == s.store && t.mem.peers.Keys == s.mem.peers.Keys
            && t.mem.room.byID == s.mem.room.byID && Ids(t.mem.room.history) == [e0, e1]
  {
    assert |s.mem.room.history| == 1 && s.mem.room.history[0].eventID == Ids(s.mem.room.history)[0];
    AppendEffect(s.mem.room.history, EventOf(Json(Stamp(Event(next, e1), s.mem.room)), Encrypted));
  }

  /** A client acknowledges event `shared` in one session and goes away; the host starts another session in
      which it numbers its events from the start again; the client comes back and is told nothing: both
      events of the new session stay undelivered although its connection is fully resumed. */
  lemma ForeignCursorHidesEvents(
    key: Key, client: string, sid: string, next: string, fresh_: string, shared: string, now: int)
    requires client != "" && sid != "" && next != "" && sid != next && fresh_ != "" && shared != "" && fresh_ != shared
    ensures var left := AckedAndGone(Joined(Opened(key, sid, shared), FIRST, client), FIRST, shared, now);
            var moved := Apply(Apply(left, DoBroadcast(HOST, Event(next, fresh_))), DoBroadcast(HOST, Event(next, shared)));
            var t := Joined(moved, SECOND, client);
            && t.mem.room.sessionID == next && Ids(t.mem.room.history) == [fresh_, shared]
            && t.store.cursors == map[(key, client) := CursorRow(sid, shared, now)]
            && Running(t.mem, SECOND, Client) && t.mem.peers[SECOND].cursor == shared
            && Skipped(t.mem, SECOND) == t.mem.room.history
            && Delivered(Stream(t.mem.peers[SECOND])) == []
  {
    OpenedFacts(key, sid, shared);
    var s1 := Opened(key, sid, shared);
    JoinedFacts(s1, FIRST, client, sid);
    var s2 := Joined(s1, FIRST, client);
    CursorStored(s2, FIRST, shared, now, client, sid);
    var s3 := AckedAndGone(s2, FIRST, shared, now);
    NextSession(s3, sid, next, fresh_, shared);
    var s4 := Apply(Apply(s3, DoBroadcast(HOST, Event(next, fresh_))), DoBroadcast(HOST, Event(next, shared)));
    AllHidden(s4.mem.room.history, fresh_, shared);
    JoinedFacts(s4, SECOND, client, next);
  }

  lemma AllHidden(h: seq<RoomEvent>, first: string, second: string)
    requires Ids(h) == [first, second] && first != second && second != ""
    ensures AfterStart(h, second) == |h| == 2 && After(h, second) == []
  {
    assert |h| == 2 && h[0].eventID == Ids(h)[0] && h[1].eventID == Ids(h)[1];
  }

  // ---- A session whose acknowledgements leave no trace ----

  predicate OnlyAcks(steps: seq<Step>, c: PeerId, ceiling: string) {
    forall i :: 0 <= i < |steps| ==> steps[i].DoAck? && steps[i].p == c && !Less(ceiling, steps[i].eventID)
  }

  lemma {:induction false} AcksVanish(s: State, c: PeerId, steps: seq<Step>)
    requires c in s.mem.peers && s.mem.peers[c].cursor != "" && OnlyAcks(steps, c, s.mem.peers[c].cursor)
    ensures Run(s, steps) == s
  {
    if steps != [] {
      AcksVanish(s, c, steps[..|steps| - 1]);
    }
  }

  /** An event with this session and id was queued on the connection. */
  ghost predicate Heard(m: Memory, c: PeerId, sid: string, id: string) {
    exists raw: Raw :: InStream(m, c, raw) && raw.msg.sessionID == sid && raw.msg.eventID == id
  }

  lemma HeardLive(s: State, c: PeerId, msg: Message, n: nat)
    requires IsServer(s.mem, HOST) && msg.typ == Encrypted && msg.eventID != "" && Listening(s, c, n) && n < SEND_CAPACITY
    requires IsNew(Bind(s.mem.room, msg.sessionID, msg.epoch, false).history, msg.eventID)
    ensures var t := Apply(s, DoBroadcast(HOST, msg));
            && Listening(t, c, n + 1) && t.mem.peers[c].cursor == s.mem.peers[c].cursor
            && InStream(t.mem, c, WireOf(s.mem, msg))
            && (forall raw :: InStream(s.mem, c, raw) ==> InStream(t.mem, c, raw))
            && EventOf(WireOf(s.mem, msg), Encrypted) in t.mem.room.history
  {
    BroadcastStream(s.mem, HOST, msg, c, WireOf(s.mem, msg));
    forall raw | InStream(s.mem, c, raw) ensures InStream(Apply(s, DoBroadcast(HOST, msg)).mem, c, raw) {
      BroadcastStream(s.mem, HOST, msg, c, raw);
    }
    AppendEffect(Bind(s.mem.room, msg.sessionID, msg.epoch, false).history, EventOf(WireOf(s.mem, msg), Encrypted));
  }

  lemma AckTaken(s: State, c: PeerId, id: string, client: string, sid: string, n: nat)
    requires Hosted(s, sid) && Listening(s, c, n) && s.mem.peers[c].cursor == "" && id != ""
    requires s.mem.peers[c].clientID == client && client in s.mem.room.byID && s.mem.room.byID[client] == c
    ensures var t := Apply(s, DoAck(c, id));
            Hosted(t, sid) && Listening(t, c, n) && t.mem.peers[c].cursor == id
            && t.mem.room == s.mem.room && t.store == s.store
  {
  }

  /** A client acknowledges event `shared` in one session and stays connected while the host starts another,
      numbering its events from the start. Both events of the new session are queued to it live, and no
      sequence of acknowledgements of them changes anything: no cursor, no pending write, no stored row. */
  lemma SessionAcksVanish(
    key: Key, client: string, sid: string, next: string, fresh_: string, shared: string, acks: seq<Step>)
    requires client != "" && sid != "" && next != "" && sid != next && fresh_ != "" && Less(fresh_, shared)
    requires forall i :: 0 <= i < |acks| ==>
               acks[i].DoAck? && acks[i].p == FIRST && acks[i].eventID in [fresh_, shared]
    ensures var acked := Apply(Joined(Opened(key, sid, shared), FIRST, client), DoAck(FIRST, shared));
            var moved := Apply(Apply(acked, DoBroadcast(HOST, Event(next, fresh_))), DoBroadcast(HOST, Event(next, shared)));
            && moved.mem.room.sessionID == next && Ids(moved.mem.room.history) == [fresh_, shared]
            && Heard(moved.mem, FIRST, next, fresh_) && Heard(moved.mem, FIRST, next, shared)
            && Run(moved, acks) == moved && moved.store.cursors == map[]
  {
    Irreflexive(shared);
    OpenedFacts(key, sid, shared);
    var s1 := Opened(key, sid, shared);
    JoinedFacts(s1, FIRST, client, sid);
    var s2 := Joined(s1, FIRST, client);
    AckTaken(s2, FIRST, shared, client, sid, 3);
    var s3 := Apply(s2, DoAck(FIRST, shared));
    NextSession(s3, sid, next, fresh_, shared);
    BothHeard(s3, sid, next, fresh_, shared);
    var s4 := Apply(Apply(s3, DoBroadcast(HOST, Event(next, fresh_))), DoBroadcast(HOST, Event(next, shared)));
    Asymmetric(fresh_, shared);
    AcksVanish(s4, FIRST, acks);
  }

  lemma BothHeard(s: State, sid: string, next: string, e0: string, e1: string)
    requires Hosted(s, sid) && Listening(s, FIRST, 3) && next != "" && next != sid && e0 != "" && e1 != "" && e0 != e1
    ensures var u := Apply(s, DoBroadcast(HOST, Event(next, e0))); var t := Apply(u, DoBroadcast(HOST, Event(next, e1)));
            && InStream(t.mem, FIRST, WireOf(s.mem, Event(next, e0))) && InStream(t.mem, FIRST, WireOf(u.mem, Event(next, e1)))
            && FIRST in t.mem.peers && t.mem.peers[FIRST].cursor == s.mem.peers[FIRST].cursor
  {
    HeardLive(s, FIRST, Event(next, e0), 3);
    FirstOfNext(s, sid, next, e0);
    var u := Apply(s, DoBroadcast(HOST, Event(next, e0)));
    assert |u.mem.room.history| == 1 && u.mem.room.history[0].eventID == Ids(u.mem.room.history)[0];
    HeardLive(u, FIRST, Event(next, e1), 4);
  }
}
