# IntelMQ Manager: session store, configuration and API parameter types

This project is a Dafny model of three pieces of IntelMQ Manager's HTTP API backend:

- **The session store** (`intelmq_manager/session.py`). `SessionStore` keeps session payloads in an SQLite file. The file has a `version` table holding `1` and a `session` table keyed by `session_id`, with a `modified` stamp and the JSON-encoded payload. The model keeps the database files in a class `Session.DbFiles` as a map from path to tables. A path is an existing file exactly when it is a key of that map, which stands for the `os.path.isfile` test. `SessionStore` holds its path and that object. The three SQL statements become functions on maps: `Lookup`, `Upsert`, and `InitialTables` for the schema script. `Get`, `Exists` and `Set` are methods whose postconditions use those functions.
- **The configuration** (`intelmq_manager/config.py`). `Config` holds fixed defaults. `load_config` overrides each of five recognised keys when the parsed file has it. It fails when `allowed_path` or `session_store` is present but not a string, because `Path(...)` raises `TypeError` on such a value.
- **The API module** (`intelmq_manager/api.py`). This covers the `ID` parameter type and the `OneOf`/`Mapping` enumerations. It also covers `initialize_api`, which replaces the configuration and installs the real session store and cookie flags into the session middleware only when a session store is configured.

The modelled code has no session expiry, token generation, sliding activity refresh, credential table, password hashing or access lock, so none of these is modelled: its store is a plain upsert/lookup table. Also, `load_config` assigns any JSON value it finds for the two cookie flags, even though `Config` annotates them as `bool`. So the model's cookie flags hold JSON values.

## Model

| member | source | states |
|---|---|---|
| `JsonValue.NoneIfNull` | intelmq_manager/session.py:69-71 | A decoded payload is `None` exactly when the stored JSON is `null`; otherwise it is that JSON value |
| `Session.Lookup` | intelmq_manager/session.py:30-32 | The lookup gives `None` for an id with no row. It gives the stored payload exactly when a row exists and its payload is not `null` |
| `Session.Upsert` | intelmq_manager/session.py:34-37 | `INSERT OR REPLACE` leaves exactly one row for the id, stamped with the current time and holding the new payload. Every other row is unchanged, and the key set grows by at most that id |
| `Session.OpenFiles` | intelmq_manager/session.py:43-46 | Opening a store makes its file exist. A missing file gets the initial schema (version 1, no sessions). An existing file and every other file are left unchanged |
| `Session.RoundTrip` | intelmq_manager/session.py:67-78 | After `set(id, d)`, `get(id)` gives `d` back; a `null` payload reads back as `None` |
| `Session.Overwrite` | intelmq_manager/session.py:34-37 | Two stores under one id equal storing only the second, so `get` returns the second payload |
| `Session.Frame` | intelmq_manager/session.py:23-27 | Storing under one id does not change what any other id looks up (`session_id` is the primary key) |
| `Session.OpenIdempotent` | intelmq_manager/session.py:43-46 | Opening twice is the same as opening once. Opening an existing file keeps its sessions; a new file starts with none |
| `Session.SessionStore.constructor` | intelmq_manager/session.py:43-46 | The store is on the given path, its file exists afterwards, and the files become `OpenFiles` of the previous files |
| `Session.SessionStore.InitSqliteDb` | intelmq_manager/session.py:51-53 | The script runs unconditionally: on a missing file it creates the schema; on an existing file its first `CREATE TABLE` fails with a "table exists" storage error and no file changes |
| `Session.SessionStore.Get` | intelmq_manager/session.py:67-71 | Returns the `Lookup` of the id in the current session table |
| `Session.SessionStore.Exists` | intelmq_manager/session.py:73-74 | True exactly when `get` is not `None`, i.e. a row exists and its payload is not `null` |
| `Session.SessionStore.Set` | intelmq_manager/session.py:76-78 | The session table becomes the `Upsert` of the old one with the given time. The version table and all other files are unchanged |
| `Session.BasicUsage` | tests/test_sessionstore.py:15-20 | After storing `{"csrf_token": "very-secret"}`, `exists` is true and `get` returns that payload |
| `Session.ExistsNonExisting` | tests/test_sessionstore.py:22-24 | In a newly created store, an id that was never stored does not exist |
| `Session.SetOverwriting` | tests/test_sessionstore.py:26-31 | After two stores under one id, `get` returns the second payload and the row has the second timestamp |
| `Session.ReopenKeepsSessions` | intelmq_manager/session.py:43-46 | A second store opened on the same path reads what the first one stored |
| `Configuration.LoadConfig` | intelmq_manager/config.py:30-51 | Fails exactly when `allowed_path` or `session_store` is present and not a string; `allowed_path` is reported first. On success, each field is the raw value when its key is present and the class default otherwise; `session_store` is `None` when its key is absent |
| `Configuration.DefaultConfigValues` | intelmq_manager/config.py:16-27 | The default has no session store and both cookie flags `True`, and a file holding the empty object `{}` loads as exactly the default |
| `Configuration.SessionStoreIffKey` | intelmq_manager/config.py:43-44 | A session store is configured exactly when the key `session_store` is present |
| `Configuration.UnrecognisedKeyIgnored` | intelmq_manager/config.py:35-51 | Adding, changing or removing any key other than the five recognised ones leaves the result unchanged |
| `Configuration.OnlyRecognisedKeysMatter` | intelmq_manager/config.py:35-51 | Two raw configurations that agree on the five recognised keys load to the same result |
| `Api.CharRange` | intelmq_manager/api.py:39 | The ASCII letter and digit strings are runs of consecutive characters of the stated length |
| `Api.CharSet` | intelmq_manager/api.py:42 | `set(value)` holds exactly the characters that occur in the value |
| `Api.Id` | intelmq_manager/api.py:39-44 | Returns the value unchanged exactly when every character is in `ID_CHARS` and at least one `ID_CHARS` character is missing from it (proper subset). Otherwise it raises the invalid-character error for that value |
| `Api.IdIntended` | intelmq_manager/api.py:42 | Corrected check (`<=`): accepts the value unchanged exactly when every character is in `ID_CHARS` |
| `Api.CharSetSize` | intelmq_manager/api.py:42 | `set(value)` has at most as many members as the value has characters |
| `Api.DistinctCharSetSize` | intelmq_manager/api.py:42 | A value with no repeated character has exactly as many distinct characters as characters |
| `Api.IdCharStringDistinct` | intelmq_manager/api.py:39 | `ascii_letters + digits + "-"` has 63 characters, none repeated |
| `Api.IdCharsSize` | intelmq_manager/api.py:39 | `ID_CHARS` has 63 members |
| `Api.IdAcceptsEmpty` | intelmq_manager/api.py:42 | The empty string is accepted |
| `Api.IdRejectsInvalidCharacter` | intelmq_manager/api.py:42-43 | Any value containing a character outside `ID_CHARS` is refused |
| `Api.IdAcceptsShortValid` | intelmq_manager/api.py:42-44 | Every value of ID characters shorter than 63 characters is accepted, the same as under the corrected check |
| `Api.IdRejectsAllIdChars` | intelmq_manager/api.py:42 | The 63-character ID alphabet itself has only valid characters, yet `Id` refuses it and `IdIntended` accepts it |
| `Api.IdDiffersOnlyOnFullAlphabet` | intelmq_manager/api.py:42 | The written and the corrected check give different results exactly when the value uses every ID character |
| `Api.OneOf` | intelmq_manager/api.py:28-36 | An enumeration returns the value unchanged exactly when it is listed; otherwise it raises a key error for it |
| `Api.Mapping` | intelmq_manager/api.py:34 | A mapping type gives the mapped value exactly when the value is a key; otherwise it raises a key error |
| `Api.BoolExactly` | intelmq_manager/api.py:34 | `Bool` maps `"true"` to true and `"false"` to false, and refuses every other string |
| `Api.ActionsExactly` | intelmq_manager/api.py:30 | `Actions` accepts exactly `start`, `stop`, `restart`, `reload` and `status`, unchanged |
| `Api.EnumerationsExactly` | intelmq_manager/api.py:28-36 | `Levels`, `Groups`, `BotCmds` and `Pages` each accept exactly their listed strings |
| `Api.SessionMiddleware.constructor` | intelmq_manager/api.py:58 | The middleware starts with the given store and cookie flags |
| `Api.ApiState.constructor` | intelmq_manager/api.py:47-58 | At import time the configuration is the default, the runner uses its command, and the middleware uses the placeholder store |
| `Api.ApiState.InitializeApi` | intelmq_manager/api.py:62-87 | See the list below this table |
| `Api.StartWithoutConfig` | intelmq_manager/api.py:83-84 | Starting without a configuration file keeps the placeholder store and the cookie flags, and creates no database file |

`Api.ApiState.InitializeApi` states:

- A configuration file that `load_config` refuses changes nothing and reports the error.
- Otherwise, the configuration is replaced only when a file is given, and the runner is rebuilt from the configuration's command.
- If building the runner or the path update through it raises `IntelMQCtlError`, the call fails there. The configuration stays replaced, the runner stays replaced if it was built, and the middleware and the files are untouched.
- When both return and a session store is configured, the middleware gets a new store on that path, the file is opened as by `OpenFiles`, and both cookie flags are copied from the configuration.
- When both return and no session store is configured, the middleware and the files are unchanged.

## Findings

| source | as written | input that shows it | evidently intended | confidence | as-written member | corrected member |
|---|---|---|---|---|---|---|
| intelmq_manager/api.py:42 | `set(value) < ID_CHARS` expects a proper subset, so a value that uses every ID character is refused | the 63 characters `a`–`z`, `A`–`Z`, `0`–`9` and `-`, each once, in one string | `set(value) <= ID_CHARS`: accept every value made only of ID characters | high; not executed | `Api.IdRejectsAllIdChars` | `Api.IdIntended` |

`Api.IdAcceptsShortValid` and `Api.IdDiffersOnlyOnFullAlphabet` bound the discrepancy: it affects only values that contain all 63 ID characters, so only values at least 63 characters long. No other member of the model validates IDs, because the routes that use `ID` are left out.

## Left out

- Session expiry, token generation, sliding activity refresh, a credential table, password hashing and an access lock are not modelled, because the modelled code has none of them.
- SQLite itself is abstracted as a map of files to tables: connections, `executescript`/`execute`, commits and storage errors. A file that exists but is not a database holding these tables is not modelled, and neither is a file removed while a store is open.
- JSON encoding and decoding are not modelled. A payload reads back as the JSON value that was stored (no floats, and only string keys in objects), and a configuration file is given as its parsed top-level object. Parse errors and non-object documents are not modelled.
- `CURRENT_TIMESTAMP` is a parameter of `Session.SessionStore.Set`, not a clock.
- `pathlib.Path` normalisation is not modelled: a path is kept as the text it was given.
- `Configuration.LoadConfig` is a pure function, so it cannot change the class-level defaults of `Config`. The model has no separate lemma for that fact.
- `runctl.RunIntelMQCtl` is not part of this model, and neither are `files.FileAccess` and `file_access.update_from_runctl`. `initialize_api` is modelled as recording only the command the runner is rebuilt from. Whether those calls return or raise is a parameter (`Api.RunctlOutcome`), and what `file_access` holds afterwards is not modelled.
- `NoOpStore` is not defined in the modelled files, so it is only a placeholder value of `Api.Store` with no behaviour.
- The session middleware is library code. Its initial cookie flags are parameters of `Api.ApiState.constructor`, and its cookie handling is not modelled.
- hug's `OneOf` and `Mapping` are library code. They are modelled only as what they accept and return, and their error messages are not modelled.
- The HTTP routes, `cache_get`, the error handler and concurrent requests are not modelled.
