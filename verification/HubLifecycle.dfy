/** Rooms in the hub, one lock section at a time. A host registers in several lock sections, between
    which expiry, destruction, other registrations and departures may run. Room objects are numbered
    and live on after the hub has dropped them, because registrations in flight still hold them. */
module HubLifecycle {
  import opened Messages

  type RoomId = nat
  type PeerId = nat
  type Token = string

  /** `timer` is whether the room's offline timer is armed. */
  datatype RoomObj = RoomObj(token: Token, server: Option<PeerId>, expired: bool, timer: bool, clients: set<PeerId>)

  /** Where a host's registration stands: it has its room; it has taken the room from `old_` and told
      it so; it has also turned away a host that slipped in; or it is over. */
  datatype Phase = HasRoom | TookOver(old_: PeerId) | Insisted | Attached | Rejected

  datatype Registration = Registration(room: RoomId, phase: Phase)

  /** `next` is the first unused room number; `stopping` lists hosts whose stop_sharing found them to be
      their room's server; `destroying` lists rooms already dropped from the hub whose server is still to
      be detached. */
  datatype HubState = HubState(
    rooms: map<Token, RoomId>, objects: map<RoomId, RoomObj>, next: RoomId,
    registrations: map<PeerId, Registration>, stopping: set<PeerId>, destroying: set<RoomId>)

  datatype Step =
    | Reserve(token: Token)
    | Begin(p: PeerId, token: Token)
    | WriteFails(p: PeerId)
    | Take(p: PeerId)
    | Retake(p: PeerId)
    | Finish(p: PeerId)
    | Leave(p: PeerId)
    | Schedule(token: Token)
    | Expire(token: Token)
    | StopCheck(p: PeerId)
    | StopDestroy(p: PeerId)
    | DestroyDetach(r: RoomId)
    | ClientJoins(r: RoomId, c: PeerId)
    | ClientLeaves(r: RoomId, c: PeerId)
    | RemoveIfEmpty(r: RoomId)

  const INIT := HubState(map[], map[], 0, map[], {}, {})

  // ---- Lock sections ----

  function GetOrCreate(h: HubState, token: Token): HubState {
    if token in h.rooms then h
    else h.(rooms := h.rooms[token := h.next], next := h.next + 1,
            objects := h.objects[h.next := RoomObj(token, None, false, false, {})])
  }

  function WithRoom(h: HubState, r: RoomId, obj: RoomObj): HubState {
    h.(objects := h.objects[r := obj])
  }

  function InPhase(h: HubState, p: PeerId, phase: Phase): HubState
    requires p in h.registrations
  {
    h.(registrations := h.registrations[p := h.registrations[p].(phase := phase)])
  }

  /** The registration's lock section in which it finds the room expired or attaches to it. */
  function AttachOrReject(h: HubState, p: PeerId): HubState
    requires p in h.registrations && h.registrations[p].room in h.objects
  {
    var r := h.registrations[p].room;
    var obj := h.objects[r];
    if obj.expired then InPhase(h, p, Rejected)
    else InPhase(WithRoom(h, r, obj.(server := Some(p), timer := false)), p, Attached)
  }

  predicate At(h: HubState, p: PeerId) {
    p in h.registrations && h.registrations[p].room in h.objects
  }

  function Apply(h: HubState, step: Step): HubState {
    match step
    case Reserve(token) => GetOrCreate(h, token)
    case Begin(p, token) =>
      if p in h.registrations then h
      else
        var g := GetOrCreate(h, token);
        g.(registrations := g.registrations[p := Registration(g.rooms[token], HasRoom)])
    case WriteFails(p) =>
      if At(h, p) && h.registrations[p].phase == HasRoom then InPhase(h, p, Rejected) else h
    case Take(p) =>
      if !At(h, p) || h.registrations[p].phase != HasRoom then h
      else
        var r := h.registrations[p].room;
        if h.objects[r].server.Some?
        then InPhase(WithRoom(h, r, h.objects[r].(server := None)), p, TookOver(h.objects[r].server.value))
        else AttachOrReject(h, p)
    case Retake(p) =>
      if !At(h, p) || !h.registrations[p].phase.TookOver? then h
      else
        var r, shadow := h.registrations[p].room, h.objects[h.registrations[p].room].server;
        if shadow.Some? && shadow.value != h.registrations[p].phase.old_
        then InPhase(WithRoom(h, r, h.objects[r].(server := None)), p, Insisted)
        else AttachOrReject(h, p)
    case Finish(p) =>
      if At(h, p) && h.registrations[p].phase == Insisted then AttachOrReject(h, p) else h
    case Leave(p) =>
      if !At(h, p) || h.objects[h.registrations[p].room].server != Some(p) then h
      else WithRoom(h, h.registrations[p].room, h.objects[h.registrations[p].room].(server := None))
    case Schedule(token) =>
      if token in h.rooms && h.rooms[token] in h.objects
      then WithRoom(h, h.rooms[token], h.objects[h.rooms[token]].(timer := true)) else h
    case Expire(token) =>
      if token !in h.rooms || h.rooms[token] !in h.objects || h.objects[h.rooms[token]].server.Some? then h
      else
        WithRoom(h, h.rooms[token], h.objects[h.rooms[token]].(expired := true, timer := false)).(
          rooms := h.rooms - {token})
    case StopCheck(p) =>
      if At(h, p) && h.objects[h.registrations[p].room].server == Some(p) then h.(stopping := h.stopping + {p}) else h
    case StopDestroy(p) =>
      if p in h.stopping && At(h, p)
      then DestroyedInHub(h, h.objects[h.registrations[p].room].token).(stopping := h.stopping - {p}) else h
    case DestroyDetach(r) =>
      if r in h.destroying && r in h.objects
      then WithRoom(h, r, h.objects[r].(server := None, timer := false)).(destroying := h.destroying - {r}) else h
    case ClientJoins(r, c) =>
      if r in h.objects then WithRoom(h, r, h.objects[r].(clients := h.objects[r].clients + {c})) else h
    case ClientLeaves(r, c) =>
      if r in h.objects then WithRoom(h, r, h.objects[r].(clients := h.objects[r].clients - {c})) else h
    case RemoveIfEmpty(r) => RemovedIfEmpty(h, r)
  }

  /** Whatever room the hub holds under the token is dropped, with its server still to be detached. */
  function DestroyedInHub(h: HubState, token: Token): HubState {
    if token in h.rooms then h.(rooms := h.rooms - {token}, destroying := h.destroying + {h.rooms[token]}) else h
  }

  function RemovedIfEmpty(h: HubState, r: RoomId): HubState {
    if r !in h.objects then h
    else
      var obj := h.objects[r];
      if obj.token in h.rooms && h.rooms[obj.token] == r && obj.server.None? && obj.clients == {} && !obj.timer
      then h.(rooms := h.rooms - {obj.token}) else h
  }

  function Run(h: HubState, steps: seq<Step>): HubState {
    if steps == [] then h else Apply(Run(h, steps[..|steps| - 1]), steps[|steps| - 1])
  }

  // ---- Lifecycle invariant ----

  /** The hub holds each room under its own token and holds no expired room. */
  predicate HubSound(h: HubState) {
    forall t :: t in h.rooms ==>
      h.rooms[t] in h.objects && h.objects[h.rooms[t]].token == t && !h.objects[h.rooms[t]].expired
  }

  /** A room's server is a host whose registration attached it to that room; an expired room has none. */
  predicate RoomsSound(h: HubState) {
    forall r :: r in h.objects ==>
      && r < h.next
      && (h.objects[r].expired ==> h.objects[r].server.None?)
      && (h.objects[r].server.Some? ==> Registered(h, h.objects[r].server.value, r))
  }

  predicate Registered(h: HubState, p: PeerId, r: RoomId) {
    p in h.registrations && h.registrations[p] == Registration(r, Attached)
  }

  predicate RegistrationsSound(h: HubState) {
    forall p :: p in h.registrations ==> h.registrations[p].room in h.objects
  }

  predicate Lifecycle(h: HubState) {
    HubSound(h) && RoomsSound(h) && RegistrationsSound(h)
  }

  lemma AttachKeepsLifecycle(h: HubState, p: PeerId)
    requires Lifecycle(h) && At(h, p) && h.registrations[p].phase != Attached
    ensures Lifecycle(AttachOrReject(h, p))
  {
    var g := AttachOrReject(h, p);
    forall r | r in g.objects && g.objects[r].server.Some? ensures Registered(g, g.objects[r].server.value, r) {
      if h.objects[r].server.Some? { assert Registered(h, h.objects[r].server.value, r); }
    }
  }

  lemma YieldKeepsLifecycle(h: HubState, p: PeerId, phase: Phase)
    requires Lifecycle(h) && At(h, p) && h.registrations[p].phase != Attached && phase != Attached
    ensures var r := h.registrations[p].room;
            && Lifecycle(InPhase(WithRoom(h, r, h.objects[r].(server := None)), p, phase))
            && Lifecycle(InPhase(h, p, phase))
  {
    forall r | r in h.objects && h.objects[r].server.Some?
      ensures h.objects[r].server.value != p
    {
      assert Registered(h, h.objects[r].server.value, r);
    }
  }

  lemma RegistrationStep(h: HubState, step: Step)
    requires Lifecycle(h) && (step.WriteFails? || step.Take? || step.Retake? || step.Finish?)
    ensures Lifecycle(Apply(h, step))
  {
    if At(h, step.p) && h.registrations[step.p].phase != Attached {
      AttachKeepsLifecycle(h, step.p);
      match step
      case WriteFails(p) => YieldKeepsLifecycle(h, p, Rejected);
      case Take(p) =>
        var server := h.objects[h.registrations[p].room].server;
        if server.Some? { YieldKeepsLifecycle(h, p, TookOver(server.value)); }
      case Retake(p) => YieldKeepsLifecycle(h, p, Insisted);
      case Finish(p) =>
    }
  }

  lemma CreateStep(h: HubState, step: Step)
    requires Lifecycle(h) && (step.Reserve? || step.Begin?)
    ensures Lifecycle(Apply(h, step))
  {
  }

  lemma StepKeepsLifecycle(h: HubState, step: Step)
    requires Lifecycle(h)
    ensures Lifecycle(Apply(h, step))
  {
    if step.WriteFails? || step.Take? || step.Retake? || step.Finish? {
      RegistrationStep(h, step);
    } else if step.Reserve? || step.Begin? {
      CreateStep(h, step);
    }
  }

  /** In every reachable hub, however the lock sections interleave: each room sits under its own token,
      an expired room has no server and is not in the hub, and a room with a server is not expired. */
  lemma {:induction false} LifecycleAlways(steps: seq<Step>)
    ensures Lifecycle(Run(INIT, steps))
  {
    if steps != [] {
      LifecycleAlways(steps[..|steps| - 1]);
      StepKeepsLifecycle(Run(INIT, steps[..|steps| - 1]), steps[|steps| - 1]);
    }
  }

  predicate InHub(h: HubState, r: RoomId) {
    r in h.objects && h.objects[r].token in h.rooms && h.rooms[h.objects[r].token] == r
  }

  lemma StepKeepsExpired(h: HubState, step: Step, r: RoomId)
    requires Lifecycle(h) && r in h.objects && h.objects[r].expired
    ensures r in Apply(h, step).objects && Apply(h, step).objects[r].expired
  {
  }

  /** Once expired, a room never comes back: no continuation puts it in the hub or attaches a server. */
  lemma {:induction false} ExpiredForever(past: seq<Step>, steps: seq<Step>, r: RoomId)
    requires var h := Run(INIT, past); r in h.objects && h.objects[r].expired
    ensures var g := Run(Run(INIT, past), steps);
            Lifecycle(g) && r in g.objects && g.objects[r].expired && g.objects[r].server.None? && !InHub(g, r)
  {
    LifecycleAlways(past);
    if steps != [] {
      ExpiredForever(past, steps[..|steps| - 1], r);
      StepKeepsLifecycle(Run(Run(INIT, past), steps[..|steps| - 1]), steps[|steps| - 1]);
      StepKeepsExpired(Run(Run(INIT, past), steps[..|steps| - 1]), steps[|steps| - 1], r);
    }
  }

  // ---- Which rooms the hub holds ----

  function Held(h: HubState, token: Token): set<RoomId> {
    if token in h.rooms then {h.rooms[token]} else {}
  }

  /** The room a step drops from the hub without marking it expired. */
  function Drops(h: HubState, step: Step): set<RoomId> {
    match step
    case StopDestroy(p) =>
      if p in h.stopping && At(h, p) then Held(h, h.objects[h.registrations[p].room].token) else {}
    case RemoveIfEmpty(r) => if RemovedIfEmpty(h, r) != h then {r} else {}
    case _ => {}
  }

  function Dropped(h: HubState, steps: seq<Step>): set<RoomId> {
    if steps == [] then {}
    else Dropped(h, steps[..|steps| - 1]) + Drops(Run(h, steps[..|steps| - 1]), steps[|steps| - 1])
  }

  predicate Partition(h: HubState, dropped: set<RoomId>) {
    forall r :: r in h.objects ==> (InHub(h, r) <==> !h.objects[r].expired && r !in dropped)
  }

  predicate DroppedExist(h: HubState, dropped: set<RoomId>) {
    forall r :: r in dropped ==> r < h.next
  }

  predicate ChangesHub(step: Step) {
    step.Reserve? || step.Begin? || step.Expire? || step.StopDestroy? || step.RemoveIfEmpty?
  }

  /** Every other lock section leaves the hub's table, the tokens and the expiry marks alone. */
  lemma HubUnchanged(h: HubState, step: Step)
    requires !ChangesHub(step)
    ensures var g := Apply(h, step);
            && g.rooms == h.rooms && g.next == h.next && g.objects.Keys == h.objects.Keys
            && forall r :: r in h.objects ==>
                 g.objects[r].token == h.objects[r].token && g.objects[r].expired == h.objects[r].expired
  {
  }

  lemma CreateKeepsPartition(h: HubState, token: Token, dropped: set<RoomId>)
    requires Lifecycle(h) && Partition(h, dropped) && DroppedExist(h, dropped)
    ensures Partition(GetOrCreate(h, token), dropped)
  {
    var g := GetOrCreate(h, token);
    forall r | r in g.objects ensures InHub(g, r) <==> !g.objects[r].expired && r !in dropped {
      assert r in h.objects ==> (InHub(h, r) <==> !h.objects[r].expired && r !in dropped);
    }
  }

  lemma RemovalKeepsPartition(h: HubState, step: Step, dropped: set<RoomId>)
    requires Lifecycle(h) && Partition(h, dropped) && DroppedExist(h, dropped)
    requires step.StopDestroy? || step.RemoveIfEmpty?
    ensures Partition(Apply(h, step), dropped + Drops(h, step))
  {
    var g := Apply(h, step);
    assert g.objects == h.objects;
    forall r | r in g.objects ensures InHub(g, r) <==> !g.objects[r].expired && r !in dropped + Drops(h, step) {
      assert InHub(h, r) <==> !h.objects[r].expired && r !in dropped;
    }
  }

  lemma ExpiryKeepsPartition(h: HubState, token: Token, dropped: set<RoomId>)
    requires Lifecycle(h) && Partition(h, dropped) && DroppedExist(h, dropped)
    ensures Partition(Apply(h, Expire(token)), dropped)
  {
    var g := Apply(h, Expire(token));
    forall r | r in g.objects ensures InHub(g, r) <==> !g.objects[r].expired && r !in dropped {
      assert r in h.objects && g.objects[r].token == h.objects[r].token;
      assert InHub(h, r) <==> !h.objects[r].expired && r !in dropped;
    }
  }

  lemma StepKeepsPartition(h: HubState, step: Step, dropped: set<RoomId>)
    requires Lifecycle(h) && Partition(h, dropped) && DroppedExist(h, dropped)
    ensures Partition(Apply(h, step), dropped + Drops(h, step))
    ensures DroppedExist(Apply(h, step), dropped + Drops(h, step))
  {
    if !ChangesHub(step) {
      HubUnchanged(h, step);
    } else if step.Reserve? || step.Begin? {
      CreateKeepsPartition(h, step.token, dropped);
    } else if step.Expire? {
      ExpiryKeepsPartition(h, step.token, dropped);
    } else {
      RemovalKeepsPartition(h, step, dropped);
    }
  }

  /** After every run the hub holds exactly the rooms that neither expired nor were dropped by an
      explicit destruction or by removal when empty. */
  lemma {:induction false} HubHoldsExactly(steps: seq<Step>)
    ensures var h := Run(INIT, steps);
            Lifecycle(h) && Partition(h, Dropped(INIT, steps)) && DroppedExist(h, Dropped(INIT, steps))
  {
    if steps != [] {
      var before := steps[..|steps| - 1];
      HubHoldsExactly(before);
      StepKeepsLifecycle(Run(INIT, before), steps[|steps| - 1]);
      StepKeepsPartition(Run(INIT, before), steps[|steps| - 1], Dropped(INIT, before));
    }
  }

  /** A room with an attached host is in the hub exactly when it was not dropped: the expiry mark keeps
      a registration from attaching to an expired room, but nothing marks a dropped one. */
  lemma AttachedInHubIff(steps: seq<Step>, r: RoomId)
    requires var h := Run(INIT, steps); r in h.objects && h.objects[r].server.Some?
    ensures InHub(Run(INIT, steps), r) <==> r !in Dropped(INIT, steps)
  {
    HubHoldsExactly(steps);
  }

  /** A room without clients or timer. */
  function PlainRoom(token: Token, server: Option<PeerId>): RoomObj { RoomObj(token, server, false, false, {}) }

  /** A host attached to room 0, which the hub dropped when the host before it stopped sharing. */
  function Orphaned(p: PeerId, q: PeerId, token: Token): HubState {
    HubState(map[], map[0 := PlainRoom(token, Some(p))], 1,
             map[q := Registration(0, Attached), p := Registration(0, Attached)], {}, {})
  }

  lemma TwoRegistrations(p: PeerId, q: PeerId, token: Token)
    requires p != q
    ensures Apply(Apply(Apply(INIT, Begin(q, token)), Take(q)), Begin(p, token)) ==
            TwoAt(p, q, map[token := 0], PlainRoom(token, Some(q)), {})
  {
    var h := Apply(Apply(INIT, Begin(q, token)), Take(q));
    assert h == HubState(map[token := 0], map[0 := PlainRoom(token, Some(q))], 1, map[q := Registration(0, Attached)], {}, {});
  }

  /** The two hosts and room 0, before, while and after the first one's share is stopped. */
  function TwoAt(p: PeerId, q: PeerId, rooms: map<Token, RoomId>, obj: RoomObj, destroying: set<RoomId>): HubState {
    HubState(rooms, map[0 := obj], 1, map[q := Registration(0, Attached), p := Registration(0, HasRoom)], {}, destroying)
  }

  lemma StoppedMeanwhile(p: PeerId, q: PeerId, token: Token)
    requires p != q
    ensures Apply(Apply(TwoAt(p, q, map[token := 0], PlainRoom(token, Some(q)), {}), StopCheck(q)), StopDestroy(q)) ==
            TwoAt(p, q, map[], PlainRoom(token, Some(q)), {0})
  {
  }

  lemma DetachedThenTaken(p: PeerId, q: PeerId, token: Token)
    requires p != q
    ensures Apply(Apply(TwoAt(p, q, map[], PlainRoom(token, Some(q)), {0}), DestroyDetach(0)), Take(p)) == Orphaned(p, q, token)
  {
    assert Apply(TwoAt(p, q, map[], PlainRoom(token, Some(q)), {0}), DestroyDetach(0)) == TwoAt(p, q, map[], PlainRoom(token, None), {});
  }

  /** A host can end up attached to a room the hub no longer holds, with no destruction pending: the host
      before it stops sharing while the new one is registering. */
  lemma OrphanedHost(p: PeerId, q: PeerId, token: Token)
    requires p != q
    ensures var registering := Apply(Apply(Apply(INIT, Begin(q, token)), Take(q)), Begin(p, token));
            var stopped := Apply(Apply(Apply(registering, StopCheck(q)), StopDestroy(q)), DestroyDetach(0));
            var h := Apply(stopped, Take(p));
            && h == Orphaned(p, q, token)
            && h.objects[0].server == Some(p) && !InHub(h, 0) && h.destroying == {}
  {
    TwoRegistrations(p, q, token);
    StoppedMeanwhile(p, q, token);
    DetachedThenTaken(p, q, token);
  }

  /** How rooms leave the hub: a room with a host only by a host's stop; one without, by expiry, which marks
      it, or when it is empty, without a timer, and found so. */
  lemma LeavesHubOnly(steps: seq<Step>, step: Step, r: RoomId)
    requires InHub(Run(INIT, steps), r)
    ensures var h := Run(INIT, steps); var g := Apply(h, step); var obj := h.objects[r];
            !InHub(g, r) <==>
            match step
            case Expire(token) => token == obj.token && obj.server.None?
            case StopDestroy(p) => p in h.stopping && At(h, p) && h.objects[h.registrations[p].room].token == obj.token
            case RemoveIfEmpty(x) => x == r && obj.server.None? && obj.clients == {} && !obj.timer
            case _ => false
  {
    LifecycleAlways(steps);
    var h := Run(INIT, steps);
    if !ChangesHub(step) {
      HubUnchanged(h, step);
    } else if step.Reserve? || step.Begin? {
      CreateStep(h, step);
    } else {
      RemovalLeaves(h, step, r);
    }
  }

  lemma RemovalLeaves(h: HubState, step: Step, r: RoomId)
    requires Lifecycle(h) && InHub(h, r) && (step.Expire? || step.StopDestroy? || step.RemoveIfEmpty?)
    ensures var g := Apply(h, step); var obj := h.objects[r];
            !InHub(g, r) <==>
            match step
            case Expire(token) => token == obj.token && obj.server.None?
            case StopDestroy(p) => p in h.stopping && At(h, p) && h.objects[h.registrations[p].room].token == obj.token
            case RemoveIfEmpty(x) => x == r && obj.server.None? && obj.clients == {} && !obj.timer
  {
  }

  /** What a room's timer and its clients are after a step: the timer runs from its scheduling until a host
      attaches, the room expires or is destroyed. */
  lemma TimerAfter(h: HubState, step: Step, r: RoomId)
    requires Lifecycle(h) && r in h.objects && r in Apply(h, step).objects
    ensures var a := h.objects[r]; var b := Apply(h, step).objects[r];
            && (!a.timer && b.timer ==> step == Schedule(a.token) && InHub(h, r))
            && (a.timer && !b.timer ==>
                  || (b.server.Some? && b.server != a.server) || (b.expired && !a.expired) || step == DestroyDetach(r))
            && (b.server.Some? && b.server != a.server ==> !b.timer)
            && (b.clients != a.clients ==> step.ClientJoins? || step.ClientLeaves?)
  {
    if step.Take? || step.Retake? || step.Finish? || step.WriteFails? {
      RegistrationTimer(h, step, r);
    }
  }

  lemma RegistrationTimer(h: HubState, step: Step, r: RoomId)
    requires Lifecycle(h) && r in h.objects && (step.Take? || step.Retake? || step.Finish? || step.WriteFails?)
    ensures var a := h.objects[r]; var b := Apply(h, step).objects[r];
            && r in Apply(h, step).objects
            && (b.timer ==> a.timer) && (a.timer && !b.timer ==> b.server.Some? && b.server != a.server)
            && (b.server.Some? && b.server != a.server ==> !b.timer) && b.clients == a.clients
  {
    if At(h, step.p) && h.registrations[step.p].phase != Attached {
      var s := h.objects[h.registrations[step.p].room].server;
      if s.Some? { assert Registered(h, s.value, h.registrations[step.p].room); }
    }
  }

  /** A registration that finds no host attaches to any room that has not expired, and is turned away by one
      that has. */
  lemma TakeOutcome(h: HubState, p: PeerId)
    requires At(h, p) && h.registrations[p].phase == HasRoom && h.objects[h.registrations[p].room].server.None?
    ensures var g := Apply(h, Take(p)); var r := h.registrations[p].room;
            && p in g.registrations && r in g.objects
            && (if h.objects[r].expired then g.registrations[p].phase == Rejected && g.objects == h.objects
                else g.registrations[p].phase == Attached && g.objects[r].server == Some(p))
  {
  }

  /** Leaving takes a host off its own room and no other. */
  lemma LeaveOutcome(h: HubState, p: PeerId, r: RoomId)
    requires Lifecycle(h) && r in h.objects
    ensures var g := Apply(h, Leave(p));
            && r in g.objects && g.rooms == h.rooms
            && g.objects[r].server == if h.objects[r].server == Some(p) then None else h.objects[r].server
  {
    if h.objects[r].server == Some(p) { assert Registered(h, p, r); }
  }

  // ---- Stopping a share ----

  /** At some moment of the run the host asked to stop while it was its room's server. */
  predicate AskedAsServer(steps: seq<Step>, p: PeerId) {
    && steps != []
    && var h, step := Run(INIT, steps[..|steps| - 1]), steps[|steps| - 1];
       || AskedAsServer(steps[..|steps| - 1], p)
       || (step == StopCheck(p) && At(h, p) && h.objects[h.registrations[p].room].server == Some(p))
  }

  /** In every run, whoever is about to destroy a room asked for it as that room's server. */
  lemma {:induction false} StopperWasServer(steps: seq<Step>, p: PeerId)
    requires p in Run(INIT, steps).stopping
    ensures AskedAsServer(steps, p)
  {
    if steps != [] {
      StopperStep(Run(INIT, steps[..|steps| - 1]), steps[|steps| - 1], p);
      if p in Run(INIT, steps[..|steps| - 1]).stopping { StopperWasServer(steps[..|steps| - 1], p); }
    }
  }

  lemma StopperStep(h: HubState, step: Step, p: PeerId)
    requires p in Apply(h, step).stopping
    ensures p in h.stopping || (step == StopCheck(p) && At(h, p) && h.objects[h.registrations[p].room].server == Some(p))
  {
  }

  /** In every reachable hub: a host that passed the check of its stop_sharing destroys its own room
      exactly when the hub still holds that room, that is, when it neither expired nor was dropped. If
      the token has meanwhile passed to another room, that one is destroyed instead. */
  lemma StopDestroysOwnRoomIff(steps: seq<Step>, p: PeerId)
    requires var h := Run(INIT, steps); p in h.stopping && At(h, p)
    ensures var h := Run(INIT, steps); var r := h.registrations[p].room; var token := h.objects[r].token;
            && (Drops(h, StopDestroy(p)) == {r} <==> InHub(h, r))
            && (InHub(h, r) <==> !h.objects[r].expired && r !in Dropped(INIT, steps))
            && (!InHub(h, r) && token in h.rooms ==>
                Drops(h, StopDestroy(p)) == {h.rooms[token]} && h.rooms[token] != r)
            && token !in Apply(h, StopDestroy(p)).rooms
  {
    HubHoldsExactly(steps);
    assert DroppedExist(Run(INIT, steps), Dropped(INIT, steps));
  }

  lemma NextHost(p: PeerId, q: PeerId, u: PeerId, token: Token)
    requires p != q && u != p && u != q
    ensures var h := Apply(Apply(Orphaned(p, q, token), Begin(u, token)), Take(u));
            && h.rooms == map[token := 1] && 0 in h.objects && 1 in h.objects
            && h.objects[0] == PlainRoom(token, Some(p)) && h.objects[1] == PlainRoom(token, Some(u))
            && p in h.registrations && h.registrations[p] == Registration(0, Attached)
  {
    var h := Apply(Orphaned(p, q, token), Begin(u, token));
    assert h.rooms == map[token := 1] && h.registrations[u] == Registration(1, HasRoom);
    assert h.objects[1] == PlainRoom(token, None);
  }

  /** Such a host's stop_sharing takes the room of the host that came after it under the token. */
  lemma OrphanStopsAnother(p: PeerId, q: PeerId, u: PeerId, token: Token)
    requires p != q && u != p && u != q
    ensures var h := Apply(Apply(Apply(Orphaned(p, q, token), Begin(u, token)), Take(u)), StopCheck(p));
            && 1 in h.objects && h.objects[1].server == Some(u) && InHub(h, 1)
            && Drops(h, StopDestroy(p)) == {1} && !InHub(Apply(h, StopDestroy(p)), 1)
  {
    NextHost(p, q, u, token);
    StopTakes(Apply(Apply(Orphaned(p, q, token), Begin(u, token)), Take(u)), p);
  }

  lemma StopTakes(h: HubState, p: PeerId)
    requires At(h, p) && h.objects[h.registrations[p].room].server == Some(p)
    requires h.objects[h.registrations[p].room].token in h.rooms
    ensures var g := Apply(h, StopCheck(p)); var token := h.objects[h.registrations[p].room].token;
            && g.objects == h.objects && g.rooms == h.rooms
            && Drops(g, StopDestroy(p)) == {h.rooms[token]} && Apply(g, StopDestroy(p)).rooms == h.rooms - {token}
            && Apply(g, StopDestroy(p)).objects == h.objects
  {
  }

  // ---- Hosts that are not told ----

  /** The hosts a lock section detaches and then tells that sharing stopped. */
  function Told(h: HubState, step: Step): set<PeerId> {
    match step
    case Take(p) =>
      if At(h, p) && h.registrations[p].phase == HasRoom then Hosts(h, h.registrations[p].room) else {}
    case Retake(p) =>
      if At(h, p) && h.registrations[p].phase.TookOver?
      then Hosts(h, h.registrations[p].room) - {h.registrations[p].phase.old_} else {}
    case DestroyDetach(r) => if r in h.destroying && r in h.objects then Hosts(h, r) else {}
    case _ => {}
  }

  function Hosts(h: HubState, r: RoomId): set<PeerId>
    requires r in h.objects
  {
    if h.objects[r].server.Some? then {h.objects[r].server.value} else {}
  }

  /** A host that was taken over from does not hold the room again. */
  predicate NoComeback(h: HubState) {
    forall p :: p in h.registrations && h.registrations[p].phase.TookOver? ==>
      var old_, r := h.registrations[p].phase.old_, h.registrations[p].room;
      Registered(h, old_, r) && r in h.objects && h.objects[r].server != Some(old_)
  }

  lemma AttachKeepsNoComeback(h: HubState, p: PeerId)
    requires Lifecycle(h) && NoComeback(h) && At(h, p) && h.registrations[p].phase != Attached
    ensures NoComeback(AttachOrReject(h, p))
  {
  }

  lemma YieldKeepsNoComeback(h: HubState, p: PeerId)
    requires Lifecycle(h) && NoComeback(h) && At(h, p) && h.registrations[p].phase != Attached
    ensures var r := h.registrations[p].room;
            && NoComeback(InPhase(h, p, Rejected))
            && NoComeback(InPhase(WithRoom(h, r, h.objects[r].(server := None)), p, Insisted))
            && (h.objects[r].server.Some? ==>
                NoComeback(InPhase(WithRoom(h, r, h.objects[r].(server := None)), p, TookOver(h.objects[r].server.value))))
  {
    var r := h.registrations[p].room;
    if h.objects[r].server.Some? { assert Registered(h, h.objects[r].server.value, r); }
  }

  lemma StepKeepsNoComeback(h: HubState, step: Step)
    requires Lifecycle(h) && NoComeback(h)
    ensures NoComeback(Apply(h, step))
  {
    if step.WriteFails? || step.Take? || step.Retake? || step.Finish? {
      if At(h, step.p) && h.registrations[step.p].phase != Attached {
        AttachKeepsNoComeback(h, step.p);
        YieldKeepsNoComeback(h, step.p);
      }
    } else {
      OthersKeepNoComeback(h, step);
    }
  }

  lemma OthersKeepNoComeback(h: HubState, step: Step)
    requires Lifecycle(h) && NoComeback(h)
    requires !step.WriteFails? && !step.Take? && !step.Retake? && !step.Finish?
    ensures NoComeback(Apply(h, step))
  {
  }

  lemma {:induction false} NoComebackAlways(steps: seq<Step>)
    ensures NoComeback(Run(INIT, steps))
  {
    if steps != [] {
      NoComebackAlways(steps[..|steps| - 1]);
      LifecycleAlways(steps[..|steps| - 1]);
      StepKeepsNoComeback(Run(INIT, steps[..|steps| - 1]), steps[|steps| - 1]);
    }
  }

  /** In every reachable hub a host loses its room without leaving and without being told exactly when a
      registration that already turned one host away finishes: it does not look for another. */
  lemma DisplacedUntoldIff(steps: seq<Step>, step: Step, r: RoomId, p: PeerId)
    requires r in Run(INIT, steps).objects && Run(INIT, steps).objects[r].server == Some(p)
    ensures var h := Run(INIT, steps); var g := Apply(h, step);
            && r in g.objects
            && (g.objects[r].server != Some(p) && step != Leave(p) && p !in Told(h, step) <==>
                step.Finish? && step.p in h.registrations && h.registrations[step.p] == Registration(r, Insisted))
  {
    var h := Run(INIT, steps);
    LifecycleAlways(steps);
    NoComebackAlways(steps);
    assert Registered(h, p, r);
    if step.WriteFails? || step.Take? || step.Retake? || step.Finish? {
      RegistrationDisplaces(h, step, r, p);
    } else {
      OthersDisplace(h, step, r, p);
    }
  }

  lemma RegistrationDisplaces(h: HubState, step: Step, r: RoomId, p: PeerId)
    requires Lifecycle(h) && NoComeback(h) && Registered(h, p, r) && r in h.objects && h.objects[r].server == Some(p)
    requires step.WriteFails? || step.Take? || step.Retake? || step.Finish?
    ensures var g := Apply(h, step);
            && r in g.objects
            && (g.objects[r].server != Some(p) && p !in Told(h, step) <==>
                step.Finish? && step.p in h.registrations && h.registrations[step.p] == Registration(r, Insisted))
  {
  }

  lemma OthersDisplace(h: HubState, step: Step, r: RoomId, p: PeerId)
    requires Lifecycle(h) && r in h.objects && h.objects[r].server == Some(p)
    requires !step.WriteFails? && !step.Take? && !step.Retake? && !step.Finish?
    ensures r in Apply(h, step).objects
    ensures Apply(h, step).objects[r].server != Some(p) && step != Leave(p) ==> p in Told(h, step)
  {
  }

  datatype Hosts4 = Hosts4(a: PeerId, b: PeerId, c: PeerId, d: PeerId)

  predicate AllDistinct(x: Hosts4) {
    x.a != x.b && x.a != x.c && x.a != x.d && x.b != x.c && x.b != x.d && x.c != x.d
  }

  /** Four registrations for one room, and who holds it. */
  function FourAt(x: Hosts4, token: Token, server: Option<PeerId>, a: Phase, b: Phase, c: Phase, d: Phase): HubState {
    HubState(map[token := 0], map[0 := PlainRoom(token, server)], 1,
             map[x.a := Registration(0, a), x.b := Registration(0, b),
                 x.c := Registration(0, c), x.d := Registration(0, d)], {}, {})
  }

  function FourRegistering(x: Hosts4, token: Token): HubState {
    Apply(Apply(Apply(Apply(INIT, Begin(x.a, token)), Begin(x.b, token)), Begin(x.c, token)), Begin(x.d, token))
  }

  lemma FourRegistered(x: Hosts4, token: Token)
    requires AllDistinct(x)
    ensures FourRegistering(x, token) == FourAt(x, token, None, HasRoom, HasRoom, HasRoom, HasRoom)
  {
  }

  lemma TakenOver(x: Hosts4, token: Token)
    requires AllDistinct(x)
    ensures Apply(Apply(FourAt(x, token, None, HasRoom, HasRoom, HasRoom, HasRoom), Take(x.a)), Take(x.b)) ==
            FourAt(x, token, None, Attached, TookOver(x.a), HasRoom, HasRoom)
  {
    assert Apply(FourAt(x, token, None, HasRoom, HasRoom, HasRoom, HasRoom), Take(x.a)) ==
           FourAt(x, token, Some(x.a), Attached, HasRoom, HasRoom, HasRoom);
  }

  lemma TurnedAway(x: Hosts4, token: Token)
    requires AllDistinct(x)
    ensures Apply(Apply(FourAt(x, token, None, Attached, TookOver(x.a), HasRoom, HasRoom), Take(x.c)), Retake(x.b)) ==
            FourAt(x, token, None, Attached, Insisted, Attached, HasRoom)
  {
    assert Apply(FourAt(x, token, None, Attached, TookOver(x.a), HasRoom, HasRoom), Take(x.c)) ==
           FourAt(x, token, Some(x.c), Attached, TookOver(x.a), Attached, HasRoom);
  }

  lemma Replaced(x: Hosts4, token: Token)
    requires AllDistinct(x)
    ensures var h := Apply(FourAt(x, token, None, Attached, Insisted, Attached, HasRoom), Take(x.d));
            && h == FourAt(x, token, Some(x.d), Attached, Insisted, Attached, Attached)
            && Apply(h, Finish(x.b)) == FourAt(x, token, Some(x.b), Attached, Attached, Attached, Attached)
            && Told(h, Finish(x.b)) == {}
  {
  }

  /** It happens with four registrations: b takes over from a, turns c away, and replaces d untold. */
  lemma UntoldHost(x: Hosts4, token: Token)
    requires AllDistinct(x)
    ensures var insisting := Apply(Apply(Apply(Apply(FourRegistering(x, token), Take(x.a)), Take(x.b)), Take(x.c)), Retake(x.b));
            var h := Apply(insisting, Take(x.d));
            var g := Apply(h, Finish(x.b));
            && 0 in h.objects && h.objects[0].server == Some(x.d) && Told(h, Finish(x.b)) == {}
            && 0 in g.objects && g.objects[0].server == Some(x.b) && Registered(g, x.d, 0)
  {
    FourRegistered(x, token);
    TakenOver(x, token);
    TurnedAway(x, token);
    Replaced(x, token);
  }

  // ---- The lock sections as the program runs them ----

  class Hub {
    var rooms: map<Token, RoomId>
    var objects: map<RoomId, RoomObj>
    var next: RoomId
    var registrations: map<PeerId, Registration>
    var stopping: set<PeerId>
    var destroying: set<RoomId>

    constructor ()
      ensures View() == INIT && Lifecycle(View())
    {
      rooms, objects, next, registrations, stopping, destroying := map[], map[], 0, map[], {}, {};
    }

    function View(): HubState
      reads this
    {
      HubState(rooms, objects, next, registrations, stopping, destroying)
    }

    method GetOrCreateRoom(token: Token) returns (r: RoomId)
      requires Lifecycle(View())
      modifies this`rooms, this`objects, this`next
      ensures View() == Apply(old(View()), Reserve(token)) && Lifecycle(View())
      ensures token in rooms && r == rooms[token] && !objects[r].expired && objects[r].token == token
    {
      CreateStep(View(), Reserve(token));
      if token in rooms {
        return rooms[token];
      }
      r := next;
      objects := objects[r := RoomObj(token, None, false, false, {})];
      rooms := rooms[token := r];
      next := next + 1;
    }

    method BeginRegistration(p: PeerId, token: Token)
      requires Lifecycle(View()) && p !in registrations
      modifies this
      ensures View() == Apply(old(View()), Begin(p, token)) && Lifecycle(View())
    {
      CreateStep(View(), Begin(p, token));
      var r := GetOrCreateRoom(token);
      registrations := registrations[p := Registration(r, HasRoom)];
    }

    method SetPhase(p: PeerId, phase: Phase)
      requires p in registrations
      modifies this`registrations
      ensures View() == InPhase(old(View()), p, phase)
    {
      registrations := registrations[p := registrations[p].(phase := phase)];
    }

    /** Refused if the room expired meanwhile; otherwise the room is the host's and its timer stops. */
    method AttachServer(p: PeerId)
      requires At(View(), p)
      modifies this`objects, this`registrations
      ensures View() == AttachOrReject(old(View()), p)
    {
      var r := registrations[p].room;
      if objects[r].expired {
        SetPhase(p, Rejected);
        return;
      }
      objects := objects[r := objects[r].(server := Some(p), timer := false)];
      SetPhase(p, Attached);
    }

    /** First section: a host still attached is detached, and the lock is given up to tell it. */
    method TakeRoom(p: PeerId)
      requires Lifecycle(View()) && p in registrations && registrations[p].phase == HasRoom
      modifies this`objects, this`registrations
      ensures View() == Apply(old(View()), Take(p)) && Lifecycle(View())
    {
      RegistrationStep(View(), Take(p));
      var r := registrations[p].room;
      if objects[r].server.Some? {
        var old_ := objects[r].server.value;
        objects := objects[r := objects[r].(server := None)];
        SetPhase(p, TookOver(old_));
      } else {
        AttachServer(p);
      }
    }

    /** Second section: another host may have attached while the lock was free. */
    method RetakeRoom(p: PeerId)
      requires Lifecycle(View()) && p in registrations && registrations[p].phase.TookOver?
      modifies this`objects, this`registrations
      ensures View() == Apply(old(View()), Retake(p)) && Lifecycle(View())
    {
      RegistrationStep(View(), Retake(p));
      var r := registrations[p].room;
      if objects[r].server.Some? && objects[r].server.value != registrations[p].phase.old_ {
        objects := objects[r := objects[r].(server := None)];
        SetPhase(p, Insisted);
      } else {
        AttachServer(p);
      }
    }

    method ExpireRoom(token: Token) returns (expired: bool)
      requires Lifecycle(View())
      modifies this`rooms, this`objects
      ensures View() == Apply(old(View()), Expire(token)) && Lifecycle(View())
      ensures expired ==> token !in rooms
    {
      StepKeepsLifecycle(View(), Expire(token));
      if token !in rooms {
        return false;
      }
      var r := rooms[token];
      if objects[r].server.Some? {
        return false;
      }
      rooms := rooms - {token};
      objects := objects[r := objects[r].(expired := true, timer := false)];
      return true;
    }

    /** Third section, after a host was turned away: attaches without looking for another. */
    method FinishTakeover(p: PeerId)
      requires Lifecycle(View()) && p in registrations && registrations[p].phase == Insisted
      modifies this`objects, this`registrations
      ensures View() == Apply(old(View()), Finish(p)) && Lifecycle(View())
    {
      RegistrationStep(View(), Finish(p));
      AttachServer(p);
    }

    /** The check: only the room's current server goes on. */
    method OnStopSharing(p: PeerId) returns (isCurrent: bool)
      requires Lifecycle(View()) && p in registrations
      modifies this`stopping
      ensures View() == Apply(old(View()), StopCheck(p)) && Lifecycle(View())
      ensures isCurrent == (objects[registrations[p].room].server == Some(p))
    {
      isCurrent := objects[registrations[p].room].server == Some(p);
      if isCurrent {
        stopping := stopping + {p};
      }
    }

    /** The destruction that follows it, by token. */
    method DestroyStopped(p: PeerId)
      requires Lifecycle(View()) && p in stopping && p in registrations
      modifies this`rooms, this`stopping, this`destroying
      ensures View() == Apply(old(View()), StopDestroy(p)) && Lifecycle(View())
    {
      StepKeepsLifecycle(View(), StopDestroy(p));
      DestroyRoom(objects[registrations[p].room].token);
      stopping := stopping - {p};
    }

    method DestroyRoom(token: Token)
      modifies this`rooms, this`destroying
      ensures View() == DestroyedInHub(old(View()), token)
    {
      if token !in rooms {
        return;
      }
      destroying := destroying + {rooms[token]};
      rooms := rooms - {token};
    }

    /** The room's own part of its destruction; the host detached is told. */
    method DetachDestroyed(r: RoomId) returns (told: Option<PeerId>)
      requires Lifecycle(View()) && r in destroying && r in objects
      modifies this`objects, this`destroying
      ensures View() == Apply(old(View()), DestroyDetach(r)) && Lifecycle(View())
      ensures Told(old(View()), DestroyDetach(r)) == if told.Some? then {told.value} else {}
    {
      StepKeepsLifecycle(View(), DestroyDetach(r));
      told := objects[r].server;
      objects := objects[r := objects[r].(server := None, timer := false)];
      destroying := destroying - {r};
    }

    method RemoveRoomIfEmpty(r: RoomId)
      requires Lifecycle(View()) && r in objects
      modifies this`rooms
      ensures View() == Apply(old(View()), RemoveIfEmpty(r)) && Lifecycle(View())
    {
      StepKeepsLifecycle(View(), RemoveIfEmpty(r));
      var obj := objects[r];
      if obj.token !in rooms || rooms[obj.token] != r {
        return;
      }
      if obj.server.None? && obj.clients == {} && !obj.timer {
        rooms := rooms - {obj.token};
      }
    }
  }
}
