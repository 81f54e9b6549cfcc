/** Keeping the model catalog up to date: a refresh fetches the branch's commit id, skips the download
    when it already serves that commit, and records failures without disturbing what it serves.
    `content` is what each commit holds; network and database outcomes are inputs. */
module CatalogRefresh {
  import opened Messages
  import opened Catalog

  type Contents = string -> set<Entry>

  datatype Served = Served(version: string, entries: set<Entry>)

  datatype Status = Status(
    sourceSHA: string, lastAttempt: int, lastSuccess: Option<int>, lastError: bool, rowCount: nat)

  /** The sync-state row and the entry table. */
  datatype Database = Database(
    sourceSHA: string, lastAttempt: int, lastSuccess: Option<int>, lastError: bool, entries: set<Entry>)

  datatype Manager = Manager(snapshot: Option<Served>, status: Status, db: Database)

  const EMPTY_DB := Database("", 0, None, false, {})

  /** One refresh: the commit id fetched, if that worked; whether the files could be fetched, the
      catalog replaced and the state row written; and the time. */
  datatype Attempt = Attempt(sha: Option<string>, fetches: bool, stores: bool, upserts: bool, now: int)

  datatype Step = Refresh(attempt: Attempt) | Restart

  function Load(db: Database): Manager {
    Manager(if db.entries != {} then Some(Served(db.sourceSHA, db.entries)) else None,
            Status(db.sourceSHA, db.lastAttempt, db.lastSuccess, db.lastError, |db.entries|), db)
  }

  function Upserted(db: Database, status: Status, writes: bool): Database {
    if !writes then db
    else db.(sourceSHA := if status.sourceSHA != "" then status.sourceSHA else db.sourceSHA,
             lastAttempt := status.lastAttempt,
             lastSuccess := if status.lastSuccess.Some? then status.lastSuccess else db.lastSuccess,
             lastError := status.lastError)
  }

  function Failed(m: Manager, sha: string, writes: bool, now: int): Manager {
    var status := m.status.(
      sourceSHA := if sha != "" && m.snapshot.None? then sha else m.status.sourceSHA,
      lastAttempt := now, lastError := true);
    m.(status := status, db := Upserted(m.db, status, writes))
  }

  predicate TakesUnchangedPath(m: Manager, a: Attempt) {
    a.sha.Some? && a.sha.value == m.status.sourceSHA && m.snapshot.Some?
  }

  function Refreshed(m: Manager, content: Contents, a: Attempt): Manager {
    if a.sha.None? || a.sha.value == "" then Failed(m, "", a.upserts, a.now)
    else
      var sha := a.sha.value;
      if TakesUnchangedPath(m, a) then
        var status := Status(sha, a.now, Some(a.now), false, |m.snapshot.value.entries|);
        m.(status := status, db := Upserted(m.db, status, a.upserts))
      else if !a.fetches || !a.stores then Failed(m, sha, a.upserts, a.now)
      else
        Manager(Some(Served(sha, content(sha))), Status(sha, a.now, Some(a.now), false, |content(sha)|),
                Database(sha, a.now, Some(a.now), false, content(sha)))
  }

  function Apply(m: Manager, content: Contents, step: Step): Manager {
    match step
    case Refresh(a) => Refreshed(m, content, a)
    case Restart => Load(m.db)
  }

  function Run(m: Manager, content: Contents, steps: seq<Step>): Manager {
    if steps == [] then m else Apply(Run(m, content, steps[..|steps| - 1]), content, steps[|steps| - 1])
  }

  // ---- What is served is what the version names ----

  /** A live snapshot's version is the recorded commit and its entries are that commit's, and the
      database agrees; without a snapshot the table is empty. */
  predicate Consistent(m: Manager, content: Contents) {
    match m.snapshot
    case Some(s) =>
      && s.version == m.status.sourceSHA && s.entries == content(s.version)
      && m.db.sourceSHA == s.version && m.db.entries == s.entries
    case None => m.db.entries == {}
  }

  lemma StepKeepsConsistent(m: Manager, content: Contents, step: Step)
    requires Consistent(m, content)
    ensures Consistent(Apply(m, content, step), content)
  {
  }

  lemma {:induction false} ConsistentAlways(content: Contents, steps: seq<Step>)
    ensures Consistent(Run(Load(EMPTY_DB), content, steps), content)
  {
    if steps != [] {
      ConsistentAlways(content, steps[..|steps| - 1]);
      StepKeepsConsistent(Run(Load(EMPTY_DB), content, steps[..|steps| - 1]), content, steps[|steps| - 1]);
    }
  }

  /** After every run, a refresh that skips the download was already serving exactly the fetched commit. */
  lemma UnchangedPathIsCurrent(content: Contents, steps: seq<Step>, a: Attempt)
    requires TakesUnchangedPath(Run(Load(EMPTY_DB), content, steps), a)
    ensures Run(Load(EMPTY_DB), content, steps).snapshot == Some(Served(a.sha.value, content(a.sha.value)))
  {
    ConsistentAlways(content, steps);
  }

  /** No history pins a stale catalog: after every run, a refresh serves the commit it was told about
      exactly when it was already serving that commit's content or could fetch and store it. */
  lemma RefreshServesFetchedIff(content: Contents, steps: seq<Step>, a: Attempt)
    requires a.sha.Some? && a.sha.value != ""
    ensures var m := Run(Load(EMPTY_DB), content, steps); var want := Some(Served(a.sha.value, content(a.sha.value)));
            Refreshed(m, content, a).snapshot == want <==> m.snapshot == want || (a.fetches && a.stores)
  {
    ConsistentAlways(content, steps);
  }

  /** A failed refresh never changes what is served, and a restart right after it serves the same
      entries (an empty catalog is not served again until the next success). */
  lemma FailureKeepsServing(content: Contents, steps: seq<Step>, a: Attempt)
    requires a.sha.None? || a.sha.value == "" || !a.fetches || !a.stores
    ensures var m := Run(Load(EMPTY_DB), content, steps); var m' := Refreshed(m, content, a);
            && m'.snapshot == m.snapshot
            && Load(m'.db).snapshot == (if m.snapshot.Some? && m.snapshot.value.entries == {} then None else m.snapshot)
  {
    ConsistentAlways(content, steps);
  }

  /** The status after a refresh: the time of the attempt; on success its time too, no error and the number of
      entries served; on failure an error and the last success as it was. A commit that could not be served
      is recorded only while nothing is served. */
  lemma StatusReports(m: Manager, content: Contents, a: Attempt)
    ensures var m' := Refreshed(m, content, a);
            var works := a.sha.Some? && a.sha.value != "" && (TakesUnchangedPath(m, a) || (a.fetches && a.stores));
            && m'.status.lastAttempt == a.now && m'.status.lastError == !works
            && (works ==> m'.status.lastSuccess == Some(a.now) && m'.snapshot.Some?
                          && m'.status.rowCount == |m'.snapshot.value.entries|
                          && m'.status.sourceSHA == a.sha.value)
            && (!works ==> m'.status.lastSuccess == m.status.lastSuccess && m'.status.rowCount == m.status.rowCount
                           && m'.snapshot == m.snapshot && m'.db.entries == m.db.entries
                           && m'.status.sourceSHA == if a.sha.Some? && a.sha.value != "" && m.snapshot.None?
                                                     then a.sha.value else m.status.sourceSHA)
  {
  }

  /** Writing the state row never forgets a commit id or a success, and otherwise records the status. */
  lemma StateRowRemembers(db: Database, status: Status)
    ensures var db' := Upserted(db, status, true);
            && db'.entries == db.entries && db'.lastAttempt == status.lastAttempt && db'.lastError == status.lastError
            && (status.sourceSHA != "" ==> db'.sourceSHA == status.sourceSHA)
            && (status.sourceSHA == "" ==> db'.sourceSHA == db.sourceSHA)
            && (status.lastSuccess.Some? ==> db'.lastSuccess == status.lastSuccess)
            && (status.lastSuccess.None? ==> db'.lastSuccess == db.lastSuccess)
    ensures Upserted(db, status, false) == db
  {
  }

  /** A restart shows what the state row says, and serves the stored entries if there are any. */
  lemma RestartShows(m: Manager, content: Contents)
    ensures var m' := Apply(m, content, Restart); var s := m'.status;
            && m'.db == m.db && s.sourceSHA == m.db.sourceSHA && s.lastAttempt == m.db.lastAttempt
            && s.lastSuccess == m.db.lastSuccess && s.lastError == m.db.lastError && s.rowCount == |m.db.entries|
            && (m'.snapshot.Some? <==> m.db.entries != {})
            && (m'.snapshot.Some? ==> m'.snapshot.value.entries == m.db.entries)
  {
  }

  // ---- The manager as the program runs it ----

  class CatalogManager {
    var snapshot: Option<Served>
    var status: Status
    var db: Database

    constructor (db: Database)
      ensures View() == Load(db)
    {
      this.db := db;
      status := Status(db.sourceSHA, db.lastAttempt, db.lastSuccess, db.lastError, |db.entries|);
      snapshot := if db.entries != {} then Some(Served(db.sourceSHA, db.entries)) else None;
    }

    function View(): Manager
      reads this
    {
      Manager(snapshot, status, db)
    }

    method UpsertModelCatalogState(writes: bool)
      modifies this`db
      ensures db == Upserted(old(db), status, writes)
    {
      if !writes {
        return;
      }
      if status.sourceSHA != "" {
        db := db.(sourceSHA := status.sourceSHA);
      }
      if status.lastSuccess.Some? {
        db := db.(lastSuccess := status.lastSuccess);
      }
      db := db.(lastAttempt := status.lastAttempt, lastError := status.lastError);
    }

    method RecordFailure(sha: string, writes: bool, now: int)
      modifies this`status, this`db
      ensures View() == Failed(old(View()), sha, writes, now)
    {
      if sha != "" && snapshot.None? {
        status := status.(sourceSHA := sha);
      }
      status := status.(lastAttempt := now, lastError := true);
      UpsertModelCatalogState(writes);
    }

    method Refresh(content: Contents, a: Attempt)
      modifies this
      ensures View() == Refreshed(old(View()), content, a)
    {
      if a.sha.None? || a.sha.value == "" {
        RecordFailure("", a.upserts, a.now);
        return;
      }
      var sha := a.sha.value;
      if status.sourceSHA == sha && snapshot.Some? {
        status := Status(sha, a.now, Some(a.now), false, |snapshot.value.entries|);
        UpsertModelCatalogState(a.upserts);
        return;
      }
      if !a.fetches {
        RecordFailure(sha, a.upserts, a.now);
        return;
      }
      var entries := content(sha);
      if !a.stores {
        RecordFailure(sha, a.upserts, a.now);
        return;
      }
      db := Database(sha, a.now, Some(a.now), false, entries);
      snapshot := Some(Served(sha, entries));
      status := Status(sha, a.now, Some(a.now), false, |entries|);
    }
  }
}
