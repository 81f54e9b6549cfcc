/** The relay's SQL tables as maps keyed by their primary keys. Every method of the store is one
    transaction, so each is a total function on the tables; a failed transaction changes nothing.
    Room keys are the token hashes; times are plain integers. */
module Store {
  import opened Messages
  import opened Lex

  type Key = string

  datatype RoomRow = RoomRow(session: string, epoch: nat, meta: Meta, updatedAt: int)
  datatype EventRow = EventRow(stream: string, typ: MsgType, raw: Raw, createdAt: int)
  datatype CursorRow = CursorRow(session: string, acked: string, updatedAt: int)

  datatype Tables = Tables(
    rooms: map<Key, RoomRow>,
    sessions: map<(Key, string), int>,
    events: map<(Key, string, string), EventRow>,
    cursors: map<(Key, string), CursorRow>)

  datatype Persisted = Persisted(sessionID: string, epoch: nat, history: seq<RoomEvent>, meta: Meta)

  const NO_META := Meta("", "", "")
  const EMPTY := Tables(map[], map[], map[], map[])

  function AtLeastOne(epoch: nat): nat {
    if epoch == 0 then 1 else epoch
  }

  function Overlay(old_: Meta, new_: Meta): Meta {
    Meta(if new_.workspace != "" then new_.workspace else old_.workspace,
         if new_.provider != "" then new_.provider else old_.provider,
         if new_.model != "" then new_.model else old_.model)
  }

  // ---- The transactions ----

  function EventPersisted(t: Tables, key: Key, msg: Message, raw: Raw, now: int): Tables {
    if msg.sessionID == "" || msg.eventID == "" then t
    else
      var id := (key, msg.sessionID, msg.eventID);
      var meta := if key in t.rooms then t.rooms[key].meta else NO_META;
      var created := if id in t.events then t.events[id].createdAt else now;
      t.(rooms := t.rooms[key := RoomRow(msg.sessionID, AtLeastOne(msg.epoch), meta, now)],
         sessions := t.sessions[(key, msg.sessionID) := now],
         events := t.events[id := EventRow(msg.streamID, msg.typ, raw, created)])
  }

  function SessionPersisted(t: Tables, key: Key, sid: string, epoch: nat, meta: Meta, now: int): Tables {
    if sid == "" then t
    else
      var base := if key in t.rooms then t.rooms[key].meta else NO_META;
      t.(rooms := t.rooms[key := RoomRow(sid, AtLeastOne(epoch), Overlay(base, meta), now)],
         sessions := t.sessions[(key, sid) := now])
  }

  function RoomDestroyed(t: Tables, key: Key): Tables {
    Tables(t.rooms - {key},
           map k | k in t.sessions && k.0 != key :: t.sessions[k],
           map k | k in t.events && k.0 != key :: t.events[k],
           map k | k in t.cursors && k.0 != key :: t.cursors[k])
  }

  predicate SessionExpired(t: Tables, key: Key, sid: string, cutoff: int) {
    (key, sid) in t.sessions && t.sessions[(key, sid)] < cutoff
  }

  function ClearedRow(t: Tables, key: Key, cutoff: int): RoomRow
    requires key in t.rooms
  {
    var row := t.rooms[key];
    if row.session != "" && SessionExpired(t, key, row.session, cutoff) then row.(session := "") else row
  }

  /** Rooms without a current session go once they are older than the cutoff. */
  function DropIdle(rooms: map<Key, RoomRow>, cutoff: int): map<Key, RoomRow> {
    map k | k in rooms && !(rooms[k].session == "" && rooms[k].updatedAt < cutoff) :: rooms[k]
  }

  function Cleaned(t: Tables, cutoff: int): Tables {
    Tables(
      DropIdle(map k | k in t.rooms :: ClearedRow(t, k, cutoff), cutoff),
      map k | k in t.sessions && t.sessions[k] >= cutoff :: t.sessions[k],
      map k | k in t.events && !SessionExpired(t, k.0, k.1, cutoff) :: t.events[k],
      map k | k in t.cursors && t.cursors[k].updatedAt >= cutoff :: t.cursors[k])
  }

  function CursorSaved(t: Tables, key: Key, client: string, sid: string, event: string, now: int): Tables {
    if (key, client) in t.cursors && !Less(t.cursors[(key, client)].acked, event) then t
    else t.(cursors := t.cursors[(key, client) := CursorRow(sid, event, now)])
  }

  function LoadedCursor(t: Tables, key: Key, client: string): string {
    if (key, client) in t.cursors then t.cursors[(key, client)].acked else ""
  }

  function EventIds(t: Tables, key: Key, sid: string): set<string> {
    set k | k in t.events && k.0 == key && k.1 == sid :: k.2
  }

  lemma EventIdsMember(t: Tables, key: Key, sid: string, id: string)
    ensures id in EventIds(t, key, sid) <==> (key, sid, id) in t.events
  {
    if (key, sid, id) in t.events {
      var k := (key, sid, id);
      assert k.2 in EventIds(t, key, sid);
    }
  }

  function FromRow(sid: string, id: string, row: EventRow): RoomEvent {
    RoomEvent(sid, id, row.stream, row.raw.msg.eventHash, row.typ, row.raw)
  }

  /** The stored events of one session of one room, in id order. */
  function Rows(t: Tables, key: Key, sid: string): (h: seq<RoomEvent>)
    ensures |h| == |Sorted(EventIds(t, key, sid))|
    ensures forall i :: 0 <= i < |h| ==>
              && h[i].eventID == Sorted(EventIds(t, key, sid))[i]
              && (key, sid, h[i].eventID) in t.events
              && h[i] == FromRow(sid, h[i].eventID, t.events[(key, sid, h[i].eventID)])
  {
    var ids := Sorted(EventIds(t, key, sid));
    assert forall i :: 0 <= i < |ids| ==> (key, sid, ids[i]) in t.events by {
      forall i | 0 <= i < |ids| ensures (key, sid, ids[i]) in t.events {
        EventIdsMember(t, key, sid, ids[i]);
      }
    }
    seq(|ids|, i requires 0 <= i < |ids| => FromRow(sid, ids[i], t.events[(key, sid, ids[i])]))
  }

  function LoadedRoom(t: Tables, key: Key): Persisted {
    if key !in t.rooms then Persisted("", 0, [], NO_META)
    else
      var row := t.rooms[key];
      if row.session == "" then Persisted("", AtLeastOne(row.epoch), [], row.meta)
      else Persisted(row.session, row.epoch, Rows(t, key, row.session), row.meta)
  }

  // ---- The same operations as the program runs them ----

  class RelayStore {
    var rooms: map<Key, RoomRow>
    var sessions: map<(Key, string), int>
    var events: map<(Key, string, string), EventRow>
    var cursors: map<(Key, string), CursorRow>

    constructor ()
      ensures View() == EMPTY
    {
      rooms, sessions, events, cursors := map[], map[], map[], map[];
    }

    function View(): Tables
      reads this
    {
      Tables(rooms, sessions, events, cursors)
    }

    /** Three upserts and a commit; `commits` is whether the engine accepts the transaction. */
    method PersistEvent(key: Key, msg: Message, raw: Raw, now: int, commits: bool) returns (ok: bool)
      modifies this
      ensures ok == (commits || msg.sessionID == "" || msg.eventID == "")
      ensures View() == if commits then EventPersisted(old(View()), key, msg, raw, now) else old(View())
    {
      if msg.sessionID == "" || msg.eventID == "" {
        return true;
      }
      if !commits {
        return false;
      }
      var epoch := msg.epoch;
      if epoch == 0 {
        epoch := 1;
      }
      if key in rooms {
        rooms := rooms[key := rooms[key].(session := msg.sessionID, epoch := epoch, updatedAt := now)];
      } else {
        rooms := rooms[key := RoomRow(msg.sessionID, epoch, NO_META, now)];
      }
      sessions := sessions[(key, msg.sessionID) := now];
      var id := (key, msg.sessionID, msg.eventID);
      if id in events {
        events := events[id := events[id].(stream := msg.streamID, typ := msg.typ, raw := raw)];
      } else {
        events := events[id := EventRow(msg.streamID, msg.typ, raw, now)];
      }
      return true;
    }

    method PersistActiveSession(key: Key, sid: string, epoch: nat, meta: Meta, now: int, commits: bool)
      returns (ok: bool)
      modifies this
      ensures ok == (commits || sid == "")
      ensures View() == if commits then SessionPersisted(old(View()), key, sid, epoch, meta, now) else old(View())
    {
      if sid == "" {
        return true;
      }
      if !commits {
        return false;
      }
      var e := if epoch == 0 then 1 else epoch;
      if key in rooms {
        var merged := rooms[key].meta;
        if meta.workspace != "" { merged := merged.(workspace := meta.workspace); }
        if meta.provider != "" { merged := merged.(provider := meta.provider); }
        if meta.model != "" { merged := merged.(model := meta.model); }
        rooms := rooms[key := RoomRow(sid, e, merged, now)];
      } else {
        rooms := rooms[key := RoomRow(sid, e, meta, now)];
      }
      sessions := sessions[(key, sid) := now];
      return true;
    }

    method DestroyRoom(key: Key, commits: bool) returns (ok: bool)
      modifies this
      ensures ok == commits
      ensures View() == if commits then RoomDestroyed(old(View()), key) else old(View())
    {
      if commits {
        events := map k | k in events && k.0 != key :: events[k];
        sessions := map k | k in sessions && k.0 != key :: sessions[k];
        cursors := map k | k in cursors && k.0 != key :: cursors[k];
        rooms := rooms - {key};
      }
      return commits;
    }

    /** Five statements on the live tables, each seeing what the ones before it left: current sessions are
        cleared and events deleted while the session rows they depend on are still there, and a room
        row whose session was just cleared may go in the same run. */
    method CleanupExpired(cutoff: int, commits: bool) returns (ok: bool)
      modifies this
      ensures ok == commits
      ensures View() == if commits then Cleaned(old(View()), cutoff) else old(View())
      ensures commits ==> forall k :: k in sessions ==> sessions[k] >= cutoff
      ensures commits ==>
                forall k :: k in events <==> k in old(events) && !SessionExpired(old(View()), k.0, k.1, cutoff)
    {
      if commits {
        ClearCurrentSessions(cutoff);
        DeleteEvents(cutoff);
        sessions := map k | k in sessions && sessions[k] >= cutoff :: sessions[k];
        rooms := map k | k in rooms && !(rooms[k].session == "" && rooms[k].updatedAt < cutoff) :: rooms[k];
        cursors := map k | k in cursors && cursors[k].updatedAt >= cutoff :: cursors[k];
      }
      return commits;
    }

    /** Row by row, in any order. */
    method ClearCurrentSessions(cutoff: int)
      modifies this`rooms
      ensures rooms == map k | k in old(rooms) :: ClearedRow(old(View()), k, cutoff)
    {
      var rest := rooms.Keys;
      while rest != {}
        invariant rest <= rooms.Keys == old(rooms).Keys
        invariant forall k :: k in rooms ==>
                    rooms[k] == if k in rest then old(rooms)[k] else ClearedRow(old(View()), k, cutoff)
        decreases |rest|
      {
        var k :| k in rest;
        var row := rooms[k];
        if row.session != "" && (k, row.session) in sessions && sessions[(k, row.session)] < cutoff {
          rooms := rooms[k := row.(session := "")];
        }
        rest := rest - {k};
      }
    }

    method DeleteEvents(cutoff: int)
      modifies this`events
      ensures events == map k | k in old(events) && !SessionExpired(old(View()), k.0, k.1, cutoff) :: old(events)[k]
    {
      var rest := events.Keys;
      while rest != {}
        invariant rest <= events.Keys <= old(events).Keys
        invariant forall k :: k in events ==> events[k] == old(events)[k]
        invariant forall k :: k in old(events) ==>
                    (k in events <==> k in rest || !SessionExpired(old(View()), k.0, k.1, cutoff))
        decreases |rest|
      {
        var k :| k in rest;
        if (k.0, k.1) in sessions && sessions[(k.0, k.1)] < cutoff {
          events := events - {k};
        }
        rest := rest - {k};
      }
    }

    method SaveClientCursor(key: Key, client: string, sid: string, event: string, now: int, commits: bool)
      returns (ok: bool)
      modifies this`cursors
      ensures ok == commits
      ensures View() == if commits then CursorSaved(old(View()), key, client, sid, event, now) else old(View())
    {
      if commits {
        var id := (key, client);
        if id !in cursors || Less(cursors[id].acked, event) {
          cursors := cursors[id := CursorRow(sid, event, now)];
        }
      }
      return commits;
    }

    /** The row cursor hands out the matching rows in id order; the loop turns each into an entry. */
    method LoadRoom(key: Key) returns (state: Persisted)
      ensures state == LoadedRoom(View(), key)
    {
      if key !in rooms {
        return Persisted("", 0, [], NO_META);
      }
      var row := rooms[key];
      if row.session == "" {
        return Persisted("", if row.epoch == 0 then 1 else row.epoch, [], row.meta);
      }
      var history := ScanRows(key, row.session);
      return Persisted(row.session, row.epoch, history, row.meta);
    }

    method ScanRows(key: Key, sid: string) returns (history: seq<RoomEvent>)
      ensures history == Rows(View(), key, sid)
    {
      history := [];
      var ids := Sorted(EventIds(View(), key, sid));
      ghost var rows := Rows(View(), key, sid);
      for i := 0 to |ids|
        invariant history == rows[..i]
      {
        assert rows[i].eventID == ids[i];
        history := history + [FromRow(sid, ids[i], events[(key, sid, ids[i])])];
      }
    }
  }
}
