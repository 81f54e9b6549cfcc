/** What every sequence of store transactions keeps. */
module StoreTheorems {
  import opened Messages
  import opened Lex
  import opened Store

  datatype Op =
    | OpEvent(key: Key, msg: Message, raw: Raw, now: int)
    | OpSession(key: Key, sid: string, epoch: nat, meta: Meta, now: int)
    | OpDestroy(key: Key)
    | OpCleanup(cutoff: int)
    | OpCursor(key: Key, client: string, sid: string, event: string, now: int)

  function Do(t: Tables, op: Op): Tables {
    match op
    case OpEvent(key, msg, raw, now) => EventPersisted(t, key, msg, raw, now)
    case OpSession(key, sid, epoch, meta, now) => SessionPersisted(t, key, sid, epoch, meta, now)
    case OpDestroy(key) => RoomDestroyed(t, key)
    case OpCleanup(cutoff) => Cleaned(t, cutoff)
    case OpCursor(key, client, sid, event, now) => CursorSaved(t, key, client, sid, event, now)
  }

  function DoAll(t: Tables, ops: seq<Op>): Tables {
    if ops == [] then t else Do(DoAll(t, ops[..|ops| - 1]), ops[|ops| - 1])
  }

  // ---- Referential integrity without foreign keys ----

  /** Each stored event has its session row, and each current session names a session row. */
  ghost predicate Integrity(t: Tables) {
    && (forall k :: k in t.events ==> (k.0, k.1) in t.sessions)
    && (forall k :: k in t.rooms && t.rooms[k].session != "" ==> (k, t.rooms[k].session) in t.sessions)
  }

  lemma DoKeepsIntegrity(t: Tables, op: Op)
    requires Integrity(t)
    ensures Integrity(Do(t, op))
  {
    var u := Do(t, op);
    forall k | k in u.events ensures (k.0, k.1) in u.sessions {
      if k !in t.events {
        assert op.OpEvent? && k == (op.key, op.msg.sessionID, op.msg.eventID);
      }
    }
    forall k | k in u.rooms && u.rooms[k].session != "" ensures (k, u.rooms[k].session) in u.sessions {
      match op
      case OpCleanup(cutoff) => assert u.rooms[k] == ClearedRow(t, k, cutoff);
      case _ =>
    }
  }

  /** Integrity holds after every sequence of transactions on fresh tables. */
  lemma {:induction false} IntegrityAlways(ops: seq<Op>)
    ensures Integrity(DoAll(EMPTY, ops))
  {
    if ops != [] {
      IntegrityAlways(ops[..|ops| - 1]);
      DoKeepsIntegrity(DoAll(EMPTY, ops[..|ops| - 1]), ops[|ops| - 1]);
    }
  }

  // ---- Destroying a room ----

  /** Of a destroyed room no row is left in any table, and every other room's rows are as before. */
  lemma DestroyedExactly(t: Tables, key: Key)
    ensures var u := RoomDestroyed(t, key);
            && (forall k :: k in u.rooms <==> k in t.rooms && k != key)
            && (forall k :: k in u.sessions <==> k in t.sessions && k.0 != key)
            && (forall k :: k in u.events <==> k in t.events && k.0 != key)
            && (forall k :: k in u.cursors <==> k in t.cursors && k.0 != key)
            && (forall k :: k in u.rooms ==> u.rooms[k] == t.rooms[k])
            && (forall k :: k in u.sessions ==> u.sessions[k] == t.sessions[k])
            && (forall k :: k in u.events ==> u.events[k] == t.events[k])
            && (forall k :: k in u.cursors ==> u.cursors[k] == t.cursors[k])
  {
  }

  // ---- What each row says, after every run ----

  /** When the session was last written to: by an event or an active session, until the room is destroyed or
      a cleanup finds it too old. */
  function Touched(ops: seq<Op>, key: Key, sid: string): Option<int> {
    if ops == [] then None
    else
      var before := Touched(ops[..|ops| - 1], key, sid);
      match ops[|ops| - 1]
      case OpEvent(k, msg, _, now) => if k == key && msg.sessionID == sid != "" && msg.eventID != "" then Some(now) else before
      case OpSession(k, s, _, _, now) => if k == key && s == sid != "" then Some(now) else before
      case OpDestroy(k) => if k == key then None else before
      case OpCleanup(cutoff) => if before.Some? && before.value < cutoff then None else before
      case OpCursor(_, _, _, _, _) => before
  }

  /** After every run the session rows are exactly the sessions written to, with the time of the last write. */
  lemma {:induction false} SessionTimes(ops: seq<Op>, key: Key, sid: string)
    ensures var t := DoAll(EMPTY, ops);
            && ((key, sid) in t.sessions <==> Touched(ops, key, sid).Some?)
            && ((key, sid) in t.sessions ==> t.sessions[(key, sid)] == Touched(ops, key, sid).value)
  {
    if ops != [] {
      SessionTimes(ops[..|ops| - 1], key, sid);
    }
  }

  /** A session written to within retention survives the cleanup, with its room and all its events. */
  lemma WrittenSessionSurvives(ops: seq<Op>, op: Op, cutoff: int)
    requires op.OpEvent? && op.msg.sessionID != "" && op.msg.eventID != "" && op.now >= cutoff
    ensures var t := DoAll(EMPTY, ops + [op]); LoadedRoom(Cleaned(t, cutoff), op.key) == LoadedRoom(t, op.key)
    ensures LoadedRoom(DoAll(EMPTY, ops + [op]), op.key).sessionID == op.msg.sessionID
  {
    assert (ops + [op])[..|ops|] == ops;
    var t := DoAll(EMPTY, ops + [op]);
    SessionTimes(ops + [op], op.key, op.msg.sessionID);
    CleanupKeepsRoomIff(t, op.key, cutoff);
  }

  /** What was written under an event's key since its row was last deleted. */
  function EventWrites(ops: seq<Op>, key: Key, sid: string, id: string): seq<Op> {
    if ops == [] then []
    else
      var init, op := ops[..|ops| - 1], ops[|ops| - 1];
      var before := EventWrites(init, key, sid, id);
      match op
      case OpEvent(k, msg, _, _) =>
        if k == key && msg.sessionID == sid != "" && msg.eventID == id != "" then before + [op] else before
      case OpDestroy(k) => if k == key then [] else before
      case OpCleanup(cutoff) =>
        var touched := Touched(init, key, sid);
        if touched.Some? && touched.value < cutoff then [] else before
      case _ => before
  }

  /** After every run an event has a row exactly if it was written since; the row has the time of the first of
      those writes and the stream and bytes of the last. */
  lemma {:induction false} EventRows(ops: seq<Op>, key: Key, sid: string, id: string)
    ensures var t := DoAll(EMPTY, ops); var w := EventWrites(ops, key, sid, id); var k := (key, sid, id);
            && (forall i :: 0 <= i < |w| ==> w[i].OpEvent?)
            && (k in t.events <==> w != [])
            && (w != [] ==> var row, last := t.events[k], w[|w| - 1];
                            row.createdAt == w[0].now && row.raw == last.raw && row.typ == last.msg.typ
                            && row.stream == last.msg.streamID)
  {
    if ops != [] {
      var init, op := ops[..|ops| - 1], ops[|ops| - 1];
      EventRows(init, key, sid, id);
      SessionTimes(init, key, sid);
      EventStep(DoAll(EMPTY, init), op, (key, sid, id));
    }
  }

  lemma EventStep(t: Tables, op: Op, k: (Key, string, string))
    ensures var u := Do(t, op);
            var mine := op.OpEvent? && (op.key, op.msg.sessionID, op.msg.eventID) == k && k.1 != "" && k.2 != "";
            var gone := (op.OpDestroy? && op.key == k.0) || (op.OpCleanup? && SessionExpired(t, k.0, k.1, op.cutoff));
            && (k in u.events <==> mine || (k in t.events && !gone))
            && (mine ==> var row := u.events[k];
                         row.raw == op.raw && row.typ == op.msg.typ && row.stream == op.msg.streamID
                         && row.createdAt == if k in t.events then t.events[k].createdAt else op.now)
            && (!mine && k in u.events ==> u.events[k] == t.events[k])
  {
  }

  /** What a room's row says besides its descriptive fields. */
  datatype Naming = Naming(session: string, epoch: nat, at: int)

  /** The last write that named a session of the room; a cleanup that finds that session too old clears it,
      and drops a row that names none and is too old itself. */
  function LastNaming(ops: seq<Op>, key: Key): Option<Naming> {
    if ops == [] then None
    else
      var init := ops[..|ops| - 1];
      var before := LastNaming(init, key);
      match ops[|ops| - 1]
      case OpEvent(k, msg, _, now) =>
        if k == key && msg.sessionID != "" && msg.eventID != ""
        then Some(Naming(msg.sessionID, if msg.epoch > 0 then msg.epoch else 1, now)) else before
      case OpSession(k, sid, epoch, _, now) =>
        if k == key && sid != "" then Some(Naming(sid, if epoch > 0 then epoch else 1, now)) else before
      case OpDestroy(k) => if k == key then None else before
      case OpCleanup(cutoff) => if before.None? then None else Aged(before.value, Touched(init, key, before.value.session), cutoff)
      case OpCursor(_, _, _, _, _) => before
  }

  function Aged(n: Naming, touched: Option<int>, cutoff: int): Option<Naming> {
    var n' := if touched.Some? && touched.value < cutoff then n.(session := "") else n;
    if n'.session == "" && n'.at < cutoff then None else Some(n')
  }

  /** After every run a room has a row exactly if some write named a session of it and no cleanup or
      destruction dropped it since, and the row says what that write said. */
  lemma {:induction false} RoomRows(ops: seq<Op>, key: Key)
    ensures var t := DoAll(EMPTY, ops); var last := LastNaming(ops, key);
            && (key in t.rooms <==> last.Some?)
            && (key in t.rooms ==>
                  last.value == Naming(t.rooms[key].session, t.rooms[key].epoch, t.rooms[key].updatedAt))
  {
    if ops != [] {
      var init, op := ops[..|ops| - 1], ops[|ops| - 1];
      RoomRows(init, key);
      var t := DoAll(EMPTY, init);
      if op.OpCleanup? {
        if key in t.rooms {
          SessionTimes(init, key, t.rooms[key].session);
          NoUnnamedSession(init, key);
          CleanedNaming(t, key, op.cutoff, Touched(init, key, t.rooms[key].session));
        }
      } else {
        StepNaming(t, op, key);
      }
    }
  }

  function NamingOf(row: RoomRow): Naming { Naming(row.session, row.epoch, row.updatedAt) }

  lemma CleanedNaming(t: Tables, key: Key, cutoff: int, touched: Option<int>)
    requires key in t.rooms && (key, "") !in t.sessions
    requires (key, t.rooms[key].session) in t.sessions <==> touched.Some?
    requires touched.Some? ==> t.sessions[(key, t.rooms[key].session)] == touched.value
    ensures var u := Cleaned(t, cutoff); var aged := Aged(NamingOf(t.rooms[key]), touched, cutoff);
            (key in u.rooms <==> aged.Some?) && (key in u.rooms ==> NamingOf(u.rooms[key]) == aged.value)
  {
    CleanedRow(t, key, cutoff);
  }

  lemma StepNaming(t: Tables, op: Op, key: Key)
    requires !op.OpCleanup?
    ensures var u := Do(t, op);
            match op
            case OpEvent(k, msg, _, now) =>
              if k == key && msg.sessionID != "" && msg.eventID != ""
              then key in u.rooms && NamingOf(u.rooms[key]) == Naming(msg.sessionID, if msg.epoch > 0 then msg.epoch else 1, now)
              else key in u.rooms <==> key in t.rooms
            case OpSession(k, sid, epoch, _, now) =>
              if k == key && sid != ""
              then key in u.rooms && NamingOf(u.rooms[key]) == Naming(sid, if epoch > 0 then epoch else 1, now)
              else key in u.rooms <==> key in t.rooms
            case OpDestroy(k) => key in u.rooms <==> key in t.rooms && k != key
            case OpCursor(_, _, _, _, _) => u.rooms == t.rooms
    ensures key in t.rooms && key in Do(t, op).rooms ==>
              Do(t, op).rooms[key] == t.rooms[key] ||
              (op.OpEvent? && op.key == key && op.msg.sessionID != "" && op.msg.eventID != "") ||
              (op.OpSession? && op.key == key && op.sid != "")
  {
  }

  /** No session row has an empty id. */
  lemma {:induction false} NoUnnamedSession(ops: seq<Op>, key: Key)
    ensures (key, "") !in DoAll(EMPTY, ops).sessions && Touched(ops, key, "").None?
  {
    if ops != [] { NoUnnamedSession(ops[..|ops| - 1], key); }
  }

  lemma CleanedRow(t: Tables, key: Key, cutoff: int)
    requires key in t.rooms && (key, "") !in t.sessions
    ensures var row := t.rooms[key]; var u := Cleaned(t, cutoff);
            var session := if SessionExpired(t, key, row.session, cutoff) then "" else row.session;
            && (key in u.rooms <==> session != "" || row.updatedAt >= cutoff)
            && (key in u.rooms ==> u.rooms[key] == row.(session := session))
  {
  }

  datatype Field = Workspace | Provider | Model

  function Get(m: Meta, f: Field): string {
    match f
    case Workspace => m.workspace
    case Provider => m.provider
    case Model => m.model
  }

  /** The last value given for a descriptive field while the room had a row. */
  function LastGiven(ops: seq<Op>, key: Key, f: Field): string {
    if ops == [] then ""
    else
      var before := LastGiven(ops[..|ops| - 1], key, f);
      match ops[|ops| - 1]
      case OpSession(k, sid, _, meta, _) => if k == key && sid != "" && Get(meta, f) != "" then Get(meta, f) else before
      case OpDestroy(k) => if k == key then "" else before
      case OpCleanup(_) => if LastNaming(ops, key).None? then "" else before
      case _ => before
  }

  /** After every run each descriptive field of a room is the last non-empty value given for that field. */
  lemma {:induction false} FieldsAreLastGiven(ops: seq<Op>, key: Key, f: Field)
    ensures var t := DoAll(EMPTY, ops);
            LastGiven(ops, key, f) == if key in t.rooms then Get(t.rooms[key].meta, f) else ""
  {
    if ops != [] {
      var init, op := ops[..|ops| - 1], ops[|ops| - 1];
      FieldsAreLastGiven(init, key, f);
      RoomRows(ops, key);
      if op.OpCleanup? && key in DoAll(EMPTY, init).rooms {
        NoUnnamedSession(init, key);
        CleanedRow(DoAll(EMPTY, init), key, op.cutoff);
      }
    }
  }

  /** After every run a stored cursor row is, field for field, what some write of the run saved. */
  lemma {:induction false} CursorRowsWereSaved(ops: seq<Op>, key: Key, client: string)
    ensures (key, client) in DoAll(EMPTY, ops).cursors ==>
              var row := DoAll(EMPTY, ops).cursors[(key, client)];
              OpCursor(key, client, row.session, row.acked, row.updatedAt) in ops
  {
    if ops != [] {
      var init, op := ops[..|ops| - 1], ops[|ops| - 1];
      CursorRowsWereSaved(init, key, client);
      if (key, client) in DoAll(EMPTY, ops).cursors { CursorRowStep(DoAll(EMPTY, init), op, key, client); }
      assert ops == init + [op];
    }
  }

  lemma CursorRowStep(t: Tables, op: Op, key: Key, client: string)
    requires (key, client) in Do(t, op).cursors
    ensures var row := Do(t, op).cursors[(key, client)];
            || ((key, client) in t.cursors && t.cursors[(key, client)] == row)
            || op == OpCursor(key, client, row.session, row.acked, row.updatedAt)
  {
  }

  // ---- Retention cleanup ----

  lemma CleanupIdempotent(t: Tables, cutoff: int)
    ensures Cleaned(Cleaned(t, cutoff), cutoff) == Cleaned(t, cutoff)
  {
    var u := Cleaned(t, cutoff);
    assert forall key, sid :: !SessionExpired(u, key, sid, cutoff);
    assert forall k :: k in u.rooms ==> ClearedRow(u, k, cutoff) == u.rooms[k];
    var v := Cleaned(u, cutoff);
    assert v.rooms == u.rooms;
    assert v.events == u.events;
    assert v.sessions == u.sessions && v.cursors == u.cursors;
  }

  lemma CleanupKeepsRows(t: Tables, key: Key, sid: string, cutoff: int)
    requires !SessionExpired(t, key, sid, cutoff)
    ensures Rows(Cleaned(t, cutoff), key, sid) == Rows(t, key, sid)
  {
    var u := Cleaned(t, cutoff);
    assert EventIds(u, key, sid) == EventIds(t, key, sid) by {
      forall id ensures id in EventIds(u, key, sid) <==> id in EventIds(t, key, sid) {
        EventIdsMember(u, key, sid, id);
        EventIdsMember(t, key, sid, id);
      }
    }
  }

  /** A room with a current session loads as before exactly when that session is within retention. */
  lemma CleanupKeepsRoomIff(t: Tables, key: Key, cutoff: int)
    requires key in t.rooms && t.rooms[key].session != ""
    ensures LoadedRoom(Cleaned(t, cutoff), key) == LoadedRoom(t, key)
            <==> !SessionExpired(t, key, t.rooms[key].session, cutoff)
  {
    var u := Cleaned(t, cutoff);
    var sid := t.rooms[key].session;
    if !SessionExpired(t, key, sid, cutoff) {
      assert u.rooms[key] == t.rooms[key];
      CleanupKeepsRows(t, key, sid, cutoff);
    }
  }

  // ---- Client cursors ----

  /** The row is dropped by this transaction. */
  predicate DropsCursor(t: Tables, op: Op, key: Key, client: string) {
    match op
    case OpDestroy(k) => k == key
    case OpCleanup(cutoff) => (key, client) in t.cursors && t.cursors[(key, client)].updatedAt < cutoff
    case _ => false
  }

  /** The event ids saved for a client since its row was last deleted, in completion order. */
  function SavedIds(t: Tables, ops: seq<Op>, key: Key, client: string): seq<string> {
    if ops == [] then []
    else
      var before := SavedIds(t, ops[..|ops| - 1], key, client);
      var op := ops[|ops| - 1];
      if op.OpCursor? && op.key == key && op.client == client then before + [op.event]
      else if DropsCursor(DoAll(t, ops[..|ops| - 1]), op, key, client) then []
      else before
  }

  ghost predicate IsMax(m: string, ids: seq<string>) {
    m in ids && forall i :: 0 <= i < |ids| ==> !Less(m, ids[i])
  }

  /** After every run the persisted cursor is the largest id saved since the row was last deleted. */
  lemma {:induction false} CursorIsMax(ops: seq<Op>, key: Key, client: string)
    ensures var t := DoAll(EMPTY, ops); var ids := SavedIds(EMPTY, ops, key, client);
            && ((key, client) in t.cursors <==> ids != [])
            && (ids != [] ==> IsMax(t.cursors[(key, client)].acked, ids))
  {
    if ops != [] {
      var init, op := ops[..|ops| - 1], ops[|ops| - 1];
      CursorIsMax(init, key, client);
      var t, ids := DoAll(EMPTY, init), SavedIds(EMPTY, init, key, client);
      if op.OpCursor? && op.key == key && op.client == client {
        Irreflexive(op.event);
        if ids != [] {
          MaxExtends(t.cursors[(key, client)].acked, ids, op.event);
        }
      }
    }
  }

  lemma MaxExtends(m: string, ids: seq<string>, e: string)
    requires IsMax(m, ids)
    ensures Less(m, e) ==> IsMax(e, ids + [e])
    ensures !Less(m, e) ==> IsMax(m, ids + [e])
  {
    var all := ids + [e];
    assert all[|ids|] == e;
    if Less(m, e) {
      Irreflexive(e);
      forall i | 0 <= i < |ids| ensures !Less(e, ids[i]) {
        if Less(e, ids[i]) {
          Transitive(m, e, ids[i]);
        }
      }
    } else {
      var i :| 0 <= i < |ids| && ids[i] == m;
      assert all[i] == m;
    }
  }

  lemma MaxUnique(m: string, n: string, a: seq<string>, b: seq<string>)
    requires IsMax(m, a) && IsMax(n, b)
    requires forall x :: x in a <==> x in b
    ensures m == n
  {
    assert m in b && n in a;
    Total(m, n);
  }

  /** Two runs that saved the same ids for a client, in whatever orders, persist the same cursor. */
  lemma CursorConfluence(ops: seq<Op>, ops': seq<Op>, key: Key, client: string)
    requires forall x :: x in SavedIds(EMPTY, ops, key, client) <==> x in SavedIds(EMPTY, ops', key, client)
    ensures LoadedCursor(DoAll(EMPTY, ops), key, client) == LoadedCursor(DoAll(EMPTY, ops'), key, client)
  {
    CursorIsMax(ops, key, client);
    CursorIsMax(ops', key, client);
    var a, b := SavedIds(EMPTY, ops, key, client), SavedIds(EMPTY, ops', key, client);
    assert |a| > 0 ==> a[0] in b;
    assert |b| > 0 ==> b[0] in a;
    if a != [] {
      MaxUnique(DoAll(EMPTY, ops).cursors[(key, client)].acked, DoAll(EMPTY, ops').cursors[(key, client)].acked, a, b);
    }
  }

  /** No transaction moves a persisted cursor back; it can only be deleted. */
  lemma CursorNeverMovesBack(t: Tables, op: Op, key: Key, client: string)
    requires (key, client) in t.cursors && (key, client) in Do(t, op).cursors
    ensures !Less(Do(t, op).cursors[(key, client)].acked, t.cursors[(key, client)].acked)
  {
    Irreflexive(t.cursors[(key, client)].acked);
    if op.OpCursor? && Less(t.cursors[(key, client)].acked, op.event) {
      Asymmetric(t.cursors[(key, client)].acked, op.event);
    }
  }

  // ---- Reloading ----

  /** A load gives the current session's epoch, descriptive fields and stored events, each once. */
  lemma LoadGives(t: Tables, key: Key)
    requires key in t.rooms && t.rooms[key].session != ""
    ensures var state := LoadedRoom(t, key); var row := t.rooms[key];
            && state.sessionID == row.session && state.epoch == row.epoch && state.meta == row.meta
            && forall id :: (exists i :: 0 <= i < |state.history| && state.history[i].eventID == id)
                            <==> (key, row.session, id) in t.events
  {
    var h, sid := LoadedRoom(t, key).history, t.rooms[key].session;
    forall id ensures (exists i :: 0 <= i < |h| && h[i].eventID == id) <==> (key, sid, id) in t.events {
      if (key, sid, id) in t.events {
        EventIdsMember(t, key, sid, id);
        var ids := Sorted(EventIds(t, key, sid));
        var i :| 0 <= i < |ids| && ids[i] == id;
        assert h[i].eventID == id;
      }
    }
  }


  /** The rows of one session are exactly these entries. */
  ghost predicate Mirrors(t: Tables, key: Key, sid: string, h: seq<RoomEvent>) {
    && (forall i :: 0 <= i < |h| ==> (key, sid, h[i].eventID) in t.events)
    && (forall id :: (key, sid, id) in t.events ==> exists i :: 0 <= i < |h| && h[i].eventID == id)
  }

  ghost predicate SameIds(a: seq<RoomEvent>, b: seq<RoomEvent>) {
    |a| == |b| && forall i :: 0 <= i < |a| ==> a[i].eventID == b[i].eventID
  }

  ghost predicate IncreasingIds(h: seq<RoomEvent>) {
    forall i, j :: 0 <= i < j < |h| ==> Less(h[i].eventID, h[j].eventID)
  }

  /** Reloading a fully persisted session gives back its entries in arrival order exactly when they
      arrived with strictly increasing ids. */
  lemma ReloadKeepsOrderIff(t: Tables, key: Key, sid: string, h: seq<RoomEvent>)
    requires Mirrors(t, key, sid, h)
    ensures SameIds(Rows(t, key, sid), h) <==> IncreasingIds(h)
  {
    var rows := Rows(t, key, sid);
    var ids := Sorted(EventIds(t, key, sid));
    if SameIds(rows, h) {
      forall i, j | 0 <= i < j < |h| ensures Less(h[i].eventID, h[j].eventID) {
        assert h[i].eventID == rows[i].eventID && h[j].eventID == rows[j].eventID;
      }
    }
    if IncreasingIds(h) {
      var hs := seq(|h|, i requires 0 <= i < |h| => h[i].eventID);
      forall x ensures x in hs <==> x in ids {
        EventIdsMember(t, key, sid, x);
        if x in ids {
          var i :| 0 <= i < |h| && h[i].eventID == x;
          assert hs[i] == x;
        }
      }
      IncreasingUnique(hs, ids);
      assert forall i :: 0 <= i < |h| ==> hs[i] == h[i].eventID;
    }
  }
}
