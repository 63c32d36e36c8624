/** The SQLite-backed session store of the manager's HTTP API
    (intelmq_manager/session.py). The database files are abstracted as a map
    from path to the tables each file holds; SQL statements become functions
    on that map. */
module Session {
  import opened Wrappers
  import opened JsonValue

  type SessionId = string

  /** Stands for SQLite's `CURRENT_TIMESTAMP`; callers supply it. */
  type Timestamp = nat

  /** One row of the `session` table: the `modified` stamp and the payload
      that `json.dumps` stored and `json.loads` reads back. */
  datatype Row = Row(modified: Timestamp, data: Json)

  /** The tables of one database file: the rows of `version` and the
      `session` table keyed by its primary key `session_id`. */
  datatype Tables = Tables(version: seq<int>, sessions: map<SessionId, Row>)

  /** What the schema script creates: `version` holding 1, no sessions. */
  const InitialTables: Tables := Tables([1], map[])

  /** SQLite's error for a `CREATE TABLE` of a table that already exists. */
  datatype StorageError = TableExists(table: string)

  /** The database files on disk. A path names a database file exactly
      when it is a key of `files`. */
  class DbFiles {
    var files: map<string, Tables>

    constructor (files: map<string, Tables>)
      ensures this.files == files
    {
      this.files := files;
    }
  }

  /** The lookup statement followed by `json.loads`: the payload stored
      under `id`, or `None` when there is no row or its payload is null. */
  function Lookup(sessions: map<SessionId, Row>, id: SessionId): (r: Option<Json>)
    ensures id !in sessions ==> r == None
    ensures r.Some? <==> id in sessions && sessions[id].data != JNull
    ensures r.Some? ==> r.value == sessions[id].data
  {
    if id in sessions then NoneIfNull(sessions[id].data) else None
  }

  /** The `INSERT OR REPLACE` statement: one row keyed by `id`, stamped
      with `now`, whether the id was new or not; no other row changes. */
  function Upsert(sessions: map<SessionId, Row>, id: SessionId, data: Json, now: Timestamp)
    : (r: map<SessionId, Row>)
    ensures r.Keys == sessions.Keys + {id}
    ensures r[id].modified == now && r[id].data == data
    ensures forall other :: other in sessions && other != id ==> other in r && r[other] == sessions[other]
  {
    sessions[id := Row(now, data)]
  }

  /** The files after a store is opened on `dbname`: the schema is created
      only when no such file exists; an existing file is left as it is. */
  function OpenFiles(files: map<string, Tables>, dbname: string): (r: map<string, Tables>)
    ensures dbname in r
    ensures dbname in files ==> r == files
    ensures dbname !in files ==> r[dbname] == InitialTables
    ensures forall p :: p in files ==> p in r && r[p] == files[p]
    ensures r.Keys == files.Keys + {dbname}
  {
    if dbname in files then files else files[dbname := InitialTables]
  }

  /** After storing `data` under `id`, looking `id` up gives `data` back,
      as Python sees it (a null payload reads as `None`). */
  lemma RoundTrip(sessions: map<SessionId, Row>, id: SessionId, data: Json, now: Timestamp)
    ensures Lookup(Upsert(sessions, id, data, now), id) == NoneIfNull(data)
    ensures data != JNull ==> Lookup(Upsert(sessions, id, data, now), id) == Some(data)
  {
  }

  /** A second store under the same id replaces the first entirely. */
  lemma Overwrite(sessions: map<SessionId, Row>, id: SessionId, a: Json, b: Json, t1: Timestamp, t2: Timestamp)
    ensures Upsert(Upsert(sessions, id, a, t1), id, b, t2) == Upsert(sessions, id, b, t2)
    ensures Lookup(Upsert(Upsert(sessions, id, a, t1), id, b, t2), id) == NoneIfNull(b)
  {
  }

  /** Storing under `id` leaves what every other id looks up unchanged. */
  lemma Frame(sessions: map<SessionId, Row>, id: SessionId, other: SessionId, data: Json, now: Timestamp)
    requires other != id
    ensures Lookup(Upsert(sessions, id, data, now), other) == Lookup(sessions, other)
  {
  }

  /** Opening a store twice on one path is the same as opening it once,
      and opening an existing file keeps all its sessions. */
  lemma OpenIdempotent(files: map<string, Tables>, dbname: string)
    ensures OpenFiles(OpenFiles(files, dbname), dbname) == OpenFiles(files, dbname)
    ensures dbname in files ==> OpenFiles(files, dbname)[dbname].sessions == files[dbname].sessions
    ensures dbname !in files ==> OpenFiles(files, dbname)[dbname].sessions == map[]
  {
  }

  /** `SessionStore` of the source: a handle on the database file at `dbname`. */
  class SessionStore {
    const dbname: string
    const fs: DbFiles

    /** The database file exists (what `os.path.isfile` tests). */
    predicate DbExists()
      reads fs
    {
      dbname in fs.files
    }

    /** The current contents of the `session` table. */
    function Sessions(): (sessions: map<SessionId, Row>)
      reads fs
      requires DbExists()
    {
      fs.files[dbname].sessions
    }

    /** Opens the store, creating the schema only if the file is absent. */
    constructor (fs: DbFiles, dbname: string)
      modifies fs
      ensures this.fs == fs && this.dbname == dbname
      ensures DbExists()
      ensures fs.files == OpenFiles(old(fs.files), dbname)
    {
      this.dbname := dbname;
      this.fs := fs;
      new;
      if dbname !in fs.files {
        var outcome := InitSqliteDb();
      }
    }

    /** Runs the schema script. On a file that already holds the tables the
        first `CREATE TABLE` fails with a storage error and nothing changes. */
    method InitSqliteDb() returns (outcome: Result<(), StorageError>)
      modifies fs
      ensures outcome.Failure? <==> dbname in old(fs.files)
      ensures outcome.Failure? ==> outcome.error == TableExists("version") && fs.files == old(fs.files)
      ensures outcome.Success? ==> fs.files == old(fs.files)[dbname := InitialTables]
    {
      if dbname in fs.files {
        return Failure(TableExists("version"));
      }
      fs.files := fs.files[dbname := InitialTables];
      outcome := Success(());
    }

    /** The stored payload of `id`, or `None` (also for a stored `null`). */
    method Get(id: SessionId) returns (r: Option<Json>)
      requires DbExists()
      ensures r == Lookup(Sessions(), id)
    {
      var table := fs.files[dbname].sessions;
      if id in table {
        var row := table[id];
        r := NoneIfNull(row.data);
      } else {
        r := None;
      }
    }

    /** Whether `Get(id)` is not `None`. */
    method Exists(id: SessionId) returns (b: bool)
      requires DbExists()
      ensures b <==> Lookup(Sessions(), id).Some?
      ensures b <==> id in Sessions() && Sessions()[id].data != JNull
    {
      var r := Get(id);
      b := r.Some?;
    }

    /** Stores `data` under `id`, stamped with `now`; the version table,
        the other sessions and the other files are left unchanged. */
    method Set(id: SessionId, data: Json, now: Timestamp)
      requires DbExists()
      modifies fs
      ensures DbExists()
      ensures Sessions() == Upsert(old(Sessions()), id, data, now)
      ensures fs.files == old(fs.files)[dbname := old(fs.files[dbname]).(sessions := Sessions())]
    {
      var tables := fs.files[dbname];
      fs.files := fs.files[dbname := tables.(sessions := tables.sessions[id := Row(now, data)])];
    }
  }

  /** The payload of the basic-usage scenario: `{"csrf_token": "very-secret"}`. */
  const CsrfPayload: Json := JObject(map["csrf_token" := JString("very-secret")])

  /** Store a payload, then ask whether it exists and read it back. */
  method BasicUsage(fs: DbFiles, path: string, now: Timestamp) returns (existed: bool, got: Option<Json>)
    modifies fs
    ensures existed && got == Some(CsrfPayload)
  {
    var store := new SessionStore(fs, path);
    store.Set("some-uniqe-id", CsrfPayload, now);
    existed := store.Exists("some-uniqe-id");
    got := store.Get("some-uniqe-id");
  }

  /** An id that was never stored does not exist, in a freshly created file. */
  method ExistsNonExisting(fs: DbFiles, path: string) returns (existed: bool)
    requires path !in fs.files
    modifies fs
    ensures !existed
  {
    var store := new SessionStore(fs, path);
    existed := store.Exists("some-unknown-id");
  }

  /** The second of two stores under one id is what `Get` returns, with the
      time of the second store. */
  method SetOverwriting(fs: DbFiles, path: string, t1: Timestamp, t2: Timestamp) returns (got: Option<Json>)
    modifies fs
    ensures got == Some(JObject(map["some" := JString("other-thing")]))
    ensures path in fs.files && "just-a-session-id" in fs.files[path].sessions
    ensures fs.files[path].sessions["just-a-session-id"].modified == t2
  {
    var store := new SessionStore(fs, path);
    store.Set("just-a-session-id", JObject(map["some" := JString("thing")]), t1);
    store.Set("just-a-session-id", JObject(map["some" := JString("other-thing")]), t2);
    got := store.Get("just-a-session-id");
  }

  /** A store opened again on the same file sees what the first one stored. */
  method ReopenKeepsSessions(fs: DbFiles, path: string, data: Json, now: Timestamp) returns (got: Option<Json>)
    modifies fs
    ensures got == NoneIfNull(data)
  {
    var first := new SessionStore(fs, path);
    first.Set("id", data, now);
    var second := new SessionStore(fs, path);
    got := second.Get("id");
  }
}
