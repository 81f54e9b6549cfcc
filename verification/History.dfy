/** A room's replayable history: append with a bounded duplicate search, and the suffix a cursor names. */
module History {
  import opened Messages

  const DEDUP_WINDOW := 50

  function WindowStart(h: seq<RoomEvent>): (i: nat)
    ensures i <= |h|
  {
    if |h| < DEDUP_WINDOW then 0 else |h| - DEDUP_WINDOW
  }

  function Ids(h: seq<RoomEvent>): (ids: seq<string>)
    ensures |ids| == |h|
    ensures forall i :: 0 <= i < |h| ==> ids[i] == h[i].eventID
  {
    seq(|h|, i requires 0 <= i < |h| => h[i].eventID)
  }

  /** The newest index in h[lo..hi] whose entry has this id. */
  function FindBack(h: seq<RoomEvent>, id: string, lo: nat, hi: nat): (r: Option<nat>)
    requires lo <= hi <= |h|
    ensures r.Some? ==> lo <= r.value < hi && h[r.value].eventID == id
    ensures r.None? ==> forall i :: lo <= i < hi ==> h[i].eventID != id
    decreases hi
  {
    if lo == hi then None
    else if h[hi - 1].eventID == id then Some(hi - 1)
    else FindBack(h, id, lo, hi - 1)
  }

  function FindRecent(h: seq<RoomEvent>, id: string): Option<nat> {
    FindBack(h, id, WindowStart(h), |h|)
  }

  /** Whether an event is to be forwarded: it is transient, or not a recent duplicate. */
  predicate IsNew(h: seq<RoomEvent>, id: string) {
    id == "" || FindRecent(h, id).None?
  }

  function Append(h: seq<RoomEvent>, ev: RoomEvent): seq<RoomEvent> {
    if ev.eventID == "" then h
    else match FindRecent(h, ev.eventID)
      case Some(i) => h[i := ev]
      case None => h + [ev]
  }

  /** Where the replay for a cursor starts: after the first entry with that id, else at the beginning. */
  function AfterStart(h: seq<RoomEvent>, cursor: string): (k: nat)
    ensures k <= |h|
  {
    if cursor == "" then 0
    else match FirstIndex(h, cursor, 0)
      case Some(i) => i + 1
      case None => 0
  }

  function FirstIndex(h: seq<RoomEvent>, id: string, from: nat): (r: Option<nat>)
    requires from <= |h|
    ensures r.Some? ==> from <= r.value < |h| && h[r.value].eventID == id
    ensures r.Some? ==> forall i :: from <= i < r.value ==> h[i].eventID != id
    ensures r.None? ==> forall i :: from <= i < |h| ==> h[i].eventID != id
    decreases |h| - from
  {
    if from == |h| then None
    else if h[from].eventID == id then Some(from)
    else FirstIndex(h, id, from + 1)
  }

  function After(h: seq<RoomEvent>, cursor: string): seq<RoomEvent> {
    h[AfterStart(h, cursor)..]
  }

  // ---- Properties ----

  /** No empty id, and equal ids are more than a window apart. */
  ghost predicate Deduped(h: seq<RoomEvent>) {
    && (forall i :: 0 <= i < |h| ==> h[i].eventID != "")
    && (forall i, j :: 0 <= i < j < |h| && h[i].eventID == h[j].eventID ==> j - i > 50)
  }

  /** Appending keeps the window property; a recent duplicate only replaces the newest entry with its
      id, so the id sequence stays; otherwise the id sequence grows by exactly the new id. */
  lemma AppendEffect(h: seq<RoomEvent>, ev: RoomEvent)
    ensures Deduped(h) ==> Deduped(Append(h, ev))
    ensures ev.eventID != "" && IsNew(h, ev.eventID) ==> Append(h, ev) == h + [ev]
    ensures ev.eventID != "" && IsNew(h, ev.eventID) ==> Ids(Append(h, ev)) == Ids(h) + [ev.eventID]
    ensures ev.eventID == "" || !IsNew(h, ev.eventID) ==> Ids(Append(h, ev)) == Ids(h)
    ensures ev.eventID != "" ==> ev in Append(h, ev)
  {
    var r := Append(h, ev);
    if ev.eventID != "" {
      match FindRecent(h, ev.eventID)
      case Some(i) => assert r[i] == ev;
      case None => assert r[|h|] == ev;
    }
  }

  predicate Distinct(h: seq<RoomEvent>) {
    forall i, j :: 0 <= i < j < |h| ==> h[i].eventID != h[j].eventID
  }

  /** Full uniqueness is kept by an append exactly when the id does not sit only before the window. */
  lemma DistinctKeptIff(h: seq<RoomEvent>, ev: RoomEvent)
    requires Distinct(h)
    ensures Distinct(Append(h, ev)) <==>
            (ev.eventID == "" || forall i :: 0 <= i < |h| - 50 ==> h[i].eventID != ev.eventID)
  {
    var r := Append(h, ev);
    if ev.eventID != "" && FindRecent(h, ev.eventID).None? {
      assert r == h + [ev];
      if Distinct(r) {
        forall i | 0 <= i < WindowStart(h) ensures h[i].eventID != ev.eventID {
          assert r[i].eventID != r[|h|].eventID;
        }
      } else {
        var i, j :| 0 <= i < j < |r| && r[i].eventID == r[j].eventID;
        assert j == |h|;
      }
    }
  }

  /** A replay is a suffix of the history that holds every entry after any occurrence of the cursor,
      and it is shorter than the history whenever the cursor names an entry. */
  lemma AfterIsSuffix(h: seq<RoomEvent>, cursor: string, i: nat)
    requires i < |h| && h[i].eventID == cursor
    ensures AfterStart(h, cursor) <= i + 1
    ensures After(h, cursor) == h[AfterStart(h, cursor)..i + 1] + h[i + 1..]
    ensures cursor != "" ==> |After(h, cursor)| < |h|
  {
  }

  /** Without duplicates, the replay for the cursor at position i is exactly what follows i. */
  lemma AfterExact(h: seq<RoomEvent>, i: nat)
    requires Distinct(h) && i < |h| && h[i].eventID != ""
    ensures After(h, h[i].eventID) == h[i + 1..]
  {
    var k := AfterStart(h, h[i].eventID);
    assert k == i + 1;
  }

  /** The replay of a cursor depends on the ids alone. */
  lemma AfterStartByIds(a: seq<RoomEvent>, b: seq<RoomEvent>, cursor: string)
    requires Ids(a) == Ids(b)
    ensures AfterStart(a, cursor) == AfterStart(b, cursor)
  {
    assert |a| == |Ids(a)| == |b|;
    assert forall i :: 0 <= i < |a| ==> a[i].eventID == Ids(a)[i] == b[i].eventID;
  }

  /** Entries appended later do not move a replay that starts after a known cursor. */
  lemma AfterStartGrows(h: seq<RoomEvent>, g: seq<RoomEvent>, cursor: string)
    requires Ids(h) <= Ids(g)
    requires cursor == "" || cursor in Ids(h)
    ensures AfterStart(g, cursor) == AfterStart(h, cursor)
  {
    assert forall i :: 0 <= i < |h| ==> h[i].eventID == Ids(h)[i] == Ids(g)[i] == g[i].eventID;
  }
}
