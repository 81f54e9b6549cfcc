/** Every reachable room keeps its history free of near duplicates and of other sessions' events. */
module RelaySessions {
  import opened Messages
  import opened History
  import opened Lex
  import opened Store
  import opened Relay
  import opened RelayMachine
  import opened RelayFrames

  /** The host's entries all belong to the room's session and, unless they were restored from the
      store, to the authority epoch the room is in. */
  ghost predicate Homogeneous(r: Room) {
    forall i :: 0 <= i < |r.history| && r.history[i].typ == Encrypted ==>
      && r.history[i].sessionID == r.sessionID
      && (!r.restored ==> r.history[i].raw.msg.epoch == r.epoch && r.epoch > 0)
  }

  ghost predicate RoomInv(r: Room) {
    Deduped(r.history) && Homogeneous(r)
  }

  /** No stored event has an empty id. */
  ghost predicate StoredIds(t: Tables) {
    forall k :: k in t.events ==> k.2 != ""
  }

  ghost predicate Inv(s: State) {
    RoomInv(s.mem.room) && StoredIds(s.store)
  }

  lemma BindKeeps(r: Room, sid: string, epoch: nat, replace: bool)
    requires RoomInv(r)
    ensures var b := Bind(r, sid, epoch, replace);
            && RoomInv(b) && b.epoch > 0
            && (sid != "" ==> b.sessionID == sid) && (sid == "" ==> b.sessionID == r.sessionID)
  {
  }

  lemma AppendKeeps(r: Room, ev: RoomEvent)
    requires RoomInv(r)
    requires ev.typ == Encrypted ==> ev.sessionID == r.sessionID && ev.raw.msg.epoch == r.epoch && r.epoch > 0
    ensures RoomInv(r.(history := Append(r.history, ev)))
  {
    AppendEffect(r.history, ev);
    var h := Append(r.history, ev);
    assert forall i :: 0 <= i < |h| ==> h[i] == ev || (i < |r.history| && h[i] == r.history[i]);
  }

  /** What a load can return. */
  ghost predicate Loadable(state: Persisted) {
    && Deduped(state.history) && (state.sessionID == "" ==> state.history == [])
    && forall i :: 0 <= i < |state.history| ==> state.history[i].sessionID == state.sessionID
  }

  lemma LoadedIsLoadable(t: Tables, key: Key)
    requires StoredIds(t)
    ensures Loadable(LoadedRoom(t, key))
  {
    var h := LoadedRoom(t, key).history;
    forall i, j | 0 <= i < j < |h| ensures h[i].eventID != h[j].eventID {
      Irreflexive(h[i].eventID);
    }
  }

  lemma RestoreKeeps(r: Room, state: Persisted)
    requires RoomInv(r) && Loadable(state)
    ensures RoomInv(Hydrated(r, state))
  {
  }

  lemma HydratedKeeps(r: Room, t: Tables, key: Key)
    requires RoomInv(r) && StoredIds(t)
    ensures RoomInv(Hydrated(r, LoadedRoom(t, key)))
  {
    LoadedIsLoadable(t, key);
    RestoreKeeps(r, LoadedRoom(t, key));
  }

  lemma BroadcastKeeps(m: Memory, p: PeerId, msg: Message)
    requires RoomInv(m.room)
    ensures RoomInv(Broadcast(m, p, msg).room)
  {
    if IsServer(m, p) {
      BindKeeps(m.room, msg.sessionID, msg.epoch, false);
      var r := Bind(m.room, msg.sessionID, msg.epoch, false);
      AppendKeeps(r, EventOf(Json(Stamp(msg, r)), Encrypted));
    }
  }

  lemma ActivateKeeps(m: Memory, p: PeerId, msg: Message, meta: Meta, replace: bool)
    requires RoomInv(m.room)
    ensures RoomInv(Activate(m, p, msg, meta, replace).room)
  {
    BindKeeps(m.room.(meta := Overlay(m.room.meta, meta)), msg.sessionID, msg.epoch, replace);
  }

  lemma StoreKeepsIds(s: State, step: Step)
    requires StoredIds(s.store)
    ensures StoredIds(Apply(s, step).store)
  {
    if !(step.DoTask? && step.commits) && !step.DoCleanup? {
      StepStore(s, step);
    } else if step.DoTask? && step.i < |s.mem.tasks| {
      assert Apply(s, step).store == TaskStore(s.store, s.key, s.mem.tasks[step.i], step.now);
    }
  }

  lemma StepKeepsInv(s: State, step: Step)
    requires Inv(s)
    ensures Inv(Apply(s, step))
  {
    StoreKeepsIds(s, step);
    match step
    case DoHydrate(_) => HydratedKeeps(s.mem.room, s.store, s.key);
    case DoBroadcast(p, msg) => BroadcastKeeps(s.mem, p, msg);
    case DoClientSend(p, raw) => AppendKeeps(s.mem.room, EventOf(raw, ClientEncrypted));
    case DoActivate(p, msg, sid, meta, replace) => ActivateKeeps(s.mem, p, Named(msg, sid), meta, replace);
    case DoCrash =>
    case _ => QuietStep(s, step);
  }

  /** Session homogeneity and the duplicate window hold in every reachable state. */
  lemma {:induction false} InvAlways(key: Key, store: Tables, steps: seq<Step>)
    requires StoredIds(store)
    ensures Inv(Run(Init(key, store), steps))
  {
    if steps != [] {
      InvAlways(key, store, steps[..|steps| - 1]);
      StepKeepsInv(Run(Init(key, store), steps[..|steps| - 1]), steps[|steps| - 1]);
    }
  }

  /** No replay mixes sessions: in every reachable state, whatever a client's cursor is, every host
      event it is sent on resuming carries the room's session (and epoch, if not restored). */
  lemma ReplayIsHomogeneous(key: Key, store: Tables, steps: seq<Step>, cursor: string, i: nat)
    requires StoredIds(store)
    requires var r := Run(Init(key, store), steps).mem.room;
             i < |After(r.history, cursor)| && After(r.history, cursor)[i].typ == Encrypted
    ensures var r := Run(Init(key, store), steps).mem.room; var e := After(r.history, cursor)[i];
            e.sessionID == r.sessionID && (!r.restored ==> e.raw.msg.epoch == r.epoch)
  {
    InvAlways(key, store, steps);
    var r := Run(Init(key, store), steps).mem.room;
    assert After(r.history, cursor)[i] == r.history[AfterStart(r.history, cursor) + i];
  }

  // ---- What a binding replaces ----

  /** The binding names another session, asks for replacement, or names another epoch than the room's. */
  predicate Rebinds(r: Room, sid: string, epoch: nat, replace: bool) {
    sid != "" && (r.sessionID != sid || replace || (r.epoch != 0 && r.epoch != AtLeastOne(epoch)))
  }

  /** A binding that replaces leaves an empty history, of memory's own, restored or not; any other leaves the
      history as it was. So a history with entries survives exactly when nothing is replaced. */
  lemma BindReplacesIff(r: Room, sid: string, epoch: nat, replace: bool)
    ensures var b := Bind(r, sid, epoch, replace);
            && (Rebinds(r, sid, epoch, replace) ==> b.history == [] && !b.restored)
            && (!Rebinds(r, sid, epoch, replace) ==> b.history == r.history && b.restored == r.restored)
            && (r.history != [] ==> (b.history == r.history <==> !Rebinds(r, sid, epoch, replace)))
            && b.sessionID == (if sid == "" then r.sessionID else sid)
            && b.epoch == (if sid == "" then AtLeastOne(r.epoch) else AtLeastOne(epoch))
  {
  }

  /** With a session read earlier, a binding gives up exactly when the room has meanwhile moved to a third
      one; it then leaves session and history alone. */
  lemma BindGivesUpIff(r: Room, expected: string, sid: string, epoch: nat, replace: bool)
    requires sid != ""
    ensures var b := BindFrom(r, expected, sid, epoch, replace);
            if r.sessionID in {expected, sid} || expected == sid then b == Bind(r, sid, epoch, replace)
            else b.sessionID == r.sessionID && b.history == r.history && b.restored == r.restored
                 && b.epoch == AtLeastOne(r.epoch)
  {
  }

  predicate NoCrash(steps: seq<Step>) {
    forall i :: 0 <= i < |steps| ==> !steps[i].DoCrash?
  }

  /** The room's entries are memory's own and it is in a session. */
  predicate Own(r: Room) { r.sessionID != "" && !r.restored }

  lemma StepKeepsOwn(s: State, step: Step)
    requires Own(s.mem.room) && !step.DoCrash?
    ensures Own(Apply(s, step).mem.room)
  {
    match step
    case DoHydrate(_) =>
    case DoBroadcast(p, msg) => OwnBroadcast(s.mem, p, msg);
    case DoClientSend(p, raw) =>
    case DoActivate(p, msg, sid, meta, replace) => OwnActivation(s.mem, p, Named(msg, sid), meta, replace);
    case _ => QuietStep(s, step);
  }

  lemma OwnBroadcast(m: Memory, p: PeerId, msg: Message)
    requires Own(m.room)
    ensures Own(Broadcast(m, p, msg).room)
  {
    BindReplacesIff(m.room, msg.sessionID, msg.epoch, false);
  }

  lemma OwnActivation(m: Memory, p: PeerId, msg: Message, meta: Meta, replace: bool)
    requires Own(m.room)
    ensures Own(Activate(m, p, msg, meta, replace).room)
  {
    BindReplacesIff(m.room.(meta := Overlay(m.room.meta, meta)), msg.sessionID, msg.epoch, replace);
  }

  lemma {:induction false} StaysOwn(s: State, steps: seq<Step>)
    requires Own(s.mem.room) && NoCrash(steps)
    ensures Own(Run(s, steps).mem.room)
  {
    if steps != [] {
      StaysOwn(s, steps[..|steps| - 1]);
      StepKeepsOwn(Run(s, steps[..|steps| - 1]), steps[|steps| - 1]);
    }
  }

  predicate ChangesEpoch(s: State, step: Step) {
    (step.DoBroadcast? || step.DoActivate?) && s.mem.room.epoch != 0 && Apply(s, step).mem.room.epoch != s.mem.room.epoch
  }

  lemma BroadcastEpochClears(m: Memory, p: PeerId, msg: Message)
    requires m.room.epoch != 0 && Broadcast(m, p, msg).room.epoch != m.room.epoch
    ensures var r := Broadcast(m, p, msg).room;
            Own(r) && |r.history| <= 1 && (r.history != [] ==> r.history[0].eventID == msg.eventID)
  {
    BindReplacesIff(m.room, msg.sessionID, msg.epoch, false);
  }

  lemma ActivationEpochClears(m: Memory, p: PeerId, msg: Message, meta: Meta, replace: bool)
    requires m.room.epoch != 0 && Activate(m, p, msg, meta, replace).room.epoch != m.room.epoch
    ensures var r := Activate(m, p, msg, meta, replace).room; Own(r) && r.history == []
  {
    BindReplacesIff(m.room.(meta := Overlay(m.room.meta, meta)), msg.sessionID, msg.epoch, replace);
  }

  lemma EpochChangeClears(s: State, step: Step)
    requires ChangesEpoch(s, step)
    ensures var r := Apply(s, step).mem.room;
            Own(r) && |r.history| <= 1 && (step.DoActivate? ==> r.history == [])
  {
    match step
    case DoBroadcast(p, msg) => BroadcastEpochClears(s.mem, p, msg);
    case DoActivate(p, msg, sid, meta, replace) => ActivationEpochClears(s.mem, p, Named(msg, sid), meta, replace);
  }

  /** Once the epoch of a room has changed, restored or not, nothing from before the change is left: the
      history is empty but for the event that brought the change, and until the process restarts every
      host entry carries the epoch the room is in. */
  lemma NoStaleEpoch(key: Key, store: Tables, past: seq<Step>, step: Step, steps: seq<Step>)
    requires StoredIds(store) && ChangesEpoch(Run(Init(key, store), past), step) && NoCrash(steps)
    ensures var u := Apply(Run(Init(key, store), past), step); var r := Run(u, steps).mem.room;
            && |u.mem.room.history| <= 1
            && forall i :: 0 <= i < |r.history| && r.history[i].typ == Encrypted ==>
                 r.history[i].raw.msg.epoch == r.epoch && r.history[i].sessionID == r.sessionID
  {
    var s := Run(Init(key, store), past);
    var u := Apply(s, step);
    InvAlways(key, store, past);
    StepKeepsInv(s, step);
    EpochChangeClears(s, step);
    StaysOwn(u, steps);
    RunKeepsInv(u, steps);
  }

  lemma {:induction false} RunKeepsInv(s: State, steps: seq<Step>)
    requires Inv(s)
    ensures Inv(Run(s, steps))
  {
    if steps != [] {
      RunKeepsInv(s, steps[..|steps| - 1]);
      StepKeepsInv(Run(s, steps[..|steps| - 1]), steps[|steps| - 1]);
    }
  }

  /** What a stamped event carries: the room's epoch, its own session or else the room's, and everything
      else as the host sent it. */
  lemma StampKeeps(msg: Message, r: Room)
    ensures var m := Stamp(msg, r);
            && m.epoch == r.epoch && m.generation == 0
            && m.sessionID == (if msg.sessionID != "" then msg.sessionID else r.sessionID)
            && m.typ == msg.typ && m.eventID == msg.eventID && m.streamID == msg.streamID && m.clientID == msg.clientID
            && m.eventHash == msg.eventHash && m.count == msg.count && m.lastEventID == msg.lastEventID
            && m.body == msg.body
  {
  }

  // ---- Restores inside a handler ----

  /** Without restores the fine-grained handlers are the atomic ones. */
  lemma UninterruptedHandlers(m: Memory, p: PeerId, msg: Message, meta: Meta, replace: bool)
    ensures BroadcastDuring(m, p, msg, NOTHING, NOTHING, NOTHING) == Broadcast(m, p, msg)
    ensures ActivateDuring(m, p, msg, meta, replace, NOTHING, NOTHING) == Activate(m, p, msg, meta, replace)
  {
  }

  /** The restores inside a broadcast leave event and room in the same session. That is always so for a
      transient event and for a room that already had a session or history. Otherwise, if the binding met
      a restored session, the event names that session or none; and if it met none, an event that names
      no session does not see the room restored only after it was stamped. */
  predicate Harmless(r: Room, msg: Message, a: Persisted, b: Persisted, c: Persisted) {
    || msg.eventID == "" || r.sessionID != "" || r.history != []
    || if a.sessionID != "" then msg.sessionID == "" || msg.sessionID == a.sessionID
       else msg.sessionID != "" || b.sessionID != "" || c.sessionID == ""
  }

  /** An event appended to a room of another session leaves it mixed. */
  lemma AppendMixes(r: Room, ev: RoomEvent)
    requires ev.eventID != "" && ev.typ == Encrypted && ev.sessionID != r.sessionID
    ensures !Homogeneous(r.(history := Append(r.history, ev)))
  {
    AppendEffect(r.history, ev);
    var h := Append(r.history, ev);
    var i :| 0 <= i < |h| && h[i] == ev;
  }

  lemma RecordedInvIff(m: Memory, p: PeerId, msg: Message)
    requires RoomInv(m.room) && msg.eventID != ""
    requires m.room.restored || (msg.epoch == m.room.epoch && m.room.epoch > 0)
    ensures RoomInv(Recorded(m, p, Json(msg)).room) <==> msg.sessionID == m.room.sessionID
    ensures !RoomInv(Recorded(m, p, Json(msg)).room) ==> !Homogeneous(Recorded(m, p, Json(msg)).room)
  {
    var ev := EventOf(Json(msg), Encrypted);
    AppendEffect(m.room.history, ev);
    if msg.sessionID == m.room.sessionID {
      var h := Append(m.room.history, ev);
      assert forall i :: 0 <= i < |h| ==> h[i] == ev || (i < |m.room.history| && h[i] == m.room.history[i]);
    } else {
      AppendMixes(m.room, ev);
    }
  }

  lemma RecordedTransient(m: Memory, p: PeerId, msg: Message)
    requires RoomInv(m.room) && msg.eventID == ""
    ensures RoomInv(Recorded(m, p, Json(msg)).room)
  {
  }

  lemma BindFromKeeps(r: Room, expected: string, sid: string, epoch: nat, replace: bool)
    requires RoomInv(r)
    ensures var b := BindFrom(r, expected, sid, epoch, replace);
            RoomInv(b) && b.epoch > 0 && (r.sessionID != "" ==> b.sessionID != "")
  {
  }

  /** A stamped message fits the room it is appended to, but for its session. */
  ghost predicate Fits(r: Room, stamped: Message) {
    RoomInv(r) && (r.restored || (stamped.epoch == r.epoch && r.epoch > 0))
  }

  lemma RestoreFits(r: Room, stamped: Message, state: Persisted)
    requires Fits(r, stamped) && Loadable(state)
    ensures Fits(Hydrated(r, state), stamped)
  {
    RestoreKeeps(r, state);
  }

  lemma PreparedFits(r: Room, msg: Message, a: Persisted, b: Persisted, c: Persisted)
    requires RoomInv(r) && Loadable(a) && Loadable(b) && Loadable(c)
    ensures Fits(Prepared(r, msg, a, b, c).0, Prepared(r, msg, a, b, c).1)
  {
    RestoreKeeps(r, a);
    BindFromKeeps(Hydrated(r, a), r.sessionID, msg.sessionID, msg.epoch, false);
    var bound := BindFrom(Hydrated(r, a), r.sessionID, msg.sessionID, msg.epoch, false);
    if msg.sessionID == "" {
      RestoreKeeps(bound, b);
      var read := Hydrated(bound, b);
      var r' := read.(epoch := AtLeastOne(read.epoch));
      RestoreFits(r', Stamp(msg, r'), c);
    } else {
      RestoreFits(bound, Stamp(msg, bound), b);
      RestoreFits(Hydrated(bound, b), Stamp(msg, bound), c);
    }
  }

  predicate Blank(r: Room) { r.sessionID == "" && r.history == [] }

  lemma RestoredSession(r: Room, state: Persisted)
    requires Loadable(state)
    ensures var r' := Hydrated(r, state);
            && r'.sessionID == (if Blank(r) then state.sessionID else r.sessionID)
            && (Blank(r') <==> Blank(r) && state.sessionID == "")
  {
  }

  lemma UnnamedSessionIff(r: Room, msg: Message, a: Persisted, b: Persisted, c: Persisted)
    requires Loadable(a) && Loadable(b) && Loadable(c) && msg.eventID != "" && msg.sessionID == ""
    ensures var x := Prepared(r, msg, a, b, c);
            x.1.sessionID == x.0.sessionID <==> Harmless(r, msg, a, b, c)
  {
    RestoredSession(r, a);
    var bound := Hydrated(r, a).(epoch := AtLeastOne(Hydrated(r, a).epoch));
    RestoredSession(bound, b);
    var read := Hydrated(bound, b);
    RestoredSession(read.(epoch := AtLeastOne(read.epoch)), c);
  }

  lemma NamedSessionIff(r: Room, msg: Message, a: Persisted, b: Persisted, c: Persisted)
    requires Loadable(a) && Loadable(b) && Loadable(c) && msg.eventID != "" && msg.sessionID != ""
    ensures var x := Prepared(r, msg, a, b, c);
            x.1.sessionID == x.0.sessionID <==> Harmless(r, msg, a, b, c)
  {
    RestoredSession(r, a);
    var bound := BindFrom(Hydrated(r, a), r.sessionID, msg.sessionID, msg.epoch, false);
    assert bound.sessionID == if Blank(r) && a.sessionID != "" then a.sessionID else msg.sessionID;
    RestoredSession(bound, b);
    RestoredSession(Hydrated(bound, b), c);
  }

  /** A broadcast with restores between its lock sections keeps the history homogeneous exactly when
      they are harmless. */
  lemma InterruptedBroadcastIff(m: Memory, p: PeerId, msg: Message, a: Persisted, b: Persisted, c: Persisted)
    requires RoomInv(m.room) && Loadable(a) && Loadable(b) && Loadable(c) && IsServer(m, p)
    ensures Homogeneous(BroadcastDuring(m, p, msg, a, b, c).room) <==> Harmless(m.room, msg, a, b, c)
    ensures Harmless(m.room, msg, a, b, c) ==> RoomInv(BroadcastDuring(m, p, msg, a, b, c).room)
  {
    var (room, stamped) := Prepared(m.room, msg, a, b, c);
    PreparedFits(m.room, msg, a, b, c);
    if msg.eventID == "" {
      RecordedTransient(m.(room := room), p, stamped);
    } else {
      if msg.sessionID == "" {
        UnnamedSessionIff(m.room, msg, a, b, c);
      } else {
        NamedSessionIff(m.room, msg, a, b, c);
      }
      RecordedInvIff(m.(room := room), p, stamped);
    }
  }

  lemma InterruptedActivationKeeps(
    m: Memory, p: PeerId, msg: Message, meta: Meta, replace: bool, a: Persisted, b: Persisted)
    requires RoomInv(m.room) && Loadable(a) && Loadable(b)
    ensures RoomInv(ActivateDuring(m, p, msg, meta, replace, a, b).room)
  {
    var r0 := m.room.(meta := Overlay(m.room.meta, meta));
    RestoreKeeps(r0, a);
    var r := Hydrated(r0, a);
    RestoreKeeps(r, b);
    BindFromKeeps(Hydrated(r, b), r.sessionID, msg.sessionID, msg.epoch, replace);
  }

  // ---- Runs in which restores fall inside handlers ----

  datatype Event =
    | Whole(step: Step)
    | Restore(state: Persisted)
    | BroadcastAmid(p: PeerId, msg: Message, a: Persisted, b: Persisted, c: Persisted)
    | ActivateAmid(
        p: PeerId, msg: Message, dataSession: string, meta: Meta, replace: bool, a: Persisted, b: Persisted)

  function Perform(s: State, e: Event): State {
    match e
    case Whole(step) => Apply(s, step)
    case Restore(state) => s.(mem := Hydrate(s.mem, state))
    case BroadcastAmid(p, msg, a, b, c) => s.(mem := BroadcastDuring(s.mem, p, msg, a, b, c))
    case ActivateAmid(p, msg, dataSession, meta, replace, a, b) =>
      s.(mem := ActivateDuring(s.mem, p, Named(msg, dataSession), meta, replace, a, b))
  }

  function PerformAll(s: State, events: seq<Event>): State {
    if events == [] then s else Perform(PerformAll(s, events[..|events| - 1]), events[|events| - 1])
  }

  ghost predicate LoadsOnly(e: Event) {
    && (e.Restore? ==> Loadable(e.state))
    && (e.BroadcastAmid? ==> Loadable(e.a) && Loadable(e.b) && Loadable(e.c))
    && (e.ActivateAmid? ==> Loadable(e.a) && Loadable(e.b))
  }

  predicate HarmlessEvent(s: State, e: Event) {
    e.BroadcastAmid? && IsServer(s.mem, e.p) ==> Harmless(s.mem.room, e.msg, e.a, e.b, e.c)
  }

  predicate AllHarmless(s: State, events: seq<Event>) {
    events == [] ||
    (AllHarmless(s, events[..|events| - 1])
     && HarmlessEvent(PerformAll(s, events[..|events| - 1]), events[|events| - 1]))
  }

  /** The invariant holds at every moment of the run. */
  ghost predicate Throughout(s: State, events: seq<Event>) {
    Inv(PerformAll(s, events)) && (events == [] || Throughout(s, events[..|events| - 1]))
  }

  lemma EventKeepsInvIff(s: State, e: Event)
    requires Inv(s) && LoadsOnly(e)
    ensures Inv(Perform(s, e)) <==> HarmlessEvent(s, e)
  {
    match e
    case Whole(step) => StepKeepsInv(s, step);
    case Restore(state) => RestoreKeeps(s.mem.room, state);
    case BroadcastAmid(p, msg, a, b, c) =>
      if IsServer(s.mem, p) { InterruptedBroadcastIff(s.mem, p, msg, a, b, c); }
    case ActivateAmid(p, msg, dataSession, meta, replace, a, b) =>
      InterruptedActivationKeeps(s.mem, p, Named(msg, dataSession), meta, replace, a, b);
  }

  /** In every run, with restores falling anywhere: session homogeneity and the duplicate window hold
      at every moment exactly when every restore inside a broadcast was harmless. */
  lemma {:induction false} HomogeneousThroughoutIff(key: Key, store: Tables, events: seq<Event>)
    requires StoredIds(store) && forall i :: 0 <= i < |events| ==> LoadsOnly(events[i])
    ensures Throughout(Init(key, store), events) <==> AllHarmless(Init(key, store), events)
  {
    if events != [] {
      var before, e := events[..|events| - 1], events[|events| - 1];
      HomogeneousThroughoutIff(key, store, before);
      if Throughout(Init(key, store), before) {
        assert Inv(PerformAll(Init(key, store), before));
        EventKeepsInvIff(PerformAll(Init(key, store), before), e);
      }
    }
  }

  /** A harmful restore is reachable: the first host's load failed, and a second host's registration
      restores the room while the first one's event is being bound, or before it is appended. */
  lemma MixedSessionsReachable(key: Key, store: Tables, p: PeerId, msg: Message)
    requires StoredIds(store) && LoadedRoom(store, key).sessionID != "" && msg.eventID != ""
    requires msg.sessionID != LoadedRoom(store, key).sessionID
    ensures var found := LoadedRoom(store, key);
            var e := if msg.sessionID != "" then BroadcastAmid(p, msg, found, NOTHING, NOTHING)
                     else BroadcastAmid(p, msg, NOTHING, NOTHING, found);
            !Homogeneous(
              PerformAll(Init(key, store), [Whole(DoHydrate(false)), Whole(DoJoinServer(p, "")), e]).mem.room)
  {
    var found := LoadedRoom(store, key);
    LoadedIsLoadable(store, key);
    var e0, e1 := Whole(DoHydrate(false)), Whole(DoJoinServer(p, ""));
    var e2 := if msg.sessionID != "" then BroadcastAmid(p, msg, found, NOTHING, NOTHING)
              else BroadcastAmid(p, msg, NOTHING, NOTHING, found);
    var s := Perform(Perform(Init(key, store), e0), e1);
    FreshHost(key, store, p);
    PerformThree(Init(key, store), e0, e1, e2);
    if msg.sessionID != "" {
      InterruptedBroadcastIff(s.mem, p, msg, found, NOTHING, NOTHING);
    } else {
      InterruptedBroadcastIff(s.mem, p, msg, NOTHING, NOTHING, found);
    }
  }

  /** A host attached after a failed load finds an empty room. */
  lemma FreshHost(key: Key, store: Tables, p: PeerId)
    ensures var s := Apply(Apply(Init(key, store), DoHydrate(false)), DoJoinServer(p, ""));
            IsServer(s.mem, p) && s.mem.room.sessionID == "" && s.mem.room.history == []
  {
  }

  lemma PerformThree(s: State, e0: Event, e1: Event, e2: Event)
    ensures PerformAll(s, [e0, e1, e2]) == Perform(Perform(Perform(s, e0), e1), e2)
  {
    assert [e0, e1, e2][..2] == [e0, e1] && [e0, e1][..1] == [e0] && [e0][..0] == [];
    assert PerformAll(s, [e0]) == Perform(s, e0);
    assert PerformAll(s, [e0, e1]) == Perform(Perform(s, e0), e1);
  }
}
