/** The parts of the HTTP API module (intelmq_manager/api.py) that are not
    routing: the parameter types and the start-up selection of the session
    store. */
module Api {
  import opened Wrappers
  import opened JsonValue
  import opened Configuration
  import opened Session

  /** Why a request parameter was refused: `ValueError` from `ID`,
      `KeyError` from the enumerations. */
  datatype ParamError = InvalidCharacter(value: string) | NotOneOf(value: string)

  // ---------------------------------------------------------------------
  // The `ID` parameter type
  // ---------------------------------------------------------------------

  /** The `count` consecutive characters starting at `first`. */
  function CharRange(first: char, count: nat): (r: string)
    requires first as int + count <= 0xD800
    ensures |r| == count
    ensures forall i :: 0 <= i < count ==> r[i] as int == first as int + i
  {
    seq(count, i requires 0 <= i < count => (first as int + i) as char)
  }

  /** `string.ascii_lowercase`, `string.ascii_uppercase`, `string.digits`. */
  const AsciiLowercase: string := CharRange('a', 26)
  const AsciiUppercase: string := CharRange('A', 26)
  const Digits: string := CharRange('0', 10)

  /** The characters of `string.ascii_letters + string.digits + "-"`. */
  const IdCharString: string := AsciiLowercase + AsciiUppercase + Digits + "-"

  /** `set(s)` for a string `s`. */
  function CharSet(s: string): (r: set<char>)
    ensures forall c :: c in r <==> c in s
    decreases |s|
  {
    if s == [] then {} else {s[0]} + CharSet(s[1..])
  }

  /** `ID_CHARS`. */
  const IdChars: set<char> := CharSet(IdCharString)

  /** No character occurs twice. */
  predicate Distinct(s: string)
  {
    forall i, j :: 0 <= i < j < |s| ==> s[i] != s[j]
  }

  /** The `ID` type: the value is returned unchanged when its set of
      characters is a PROPER subset of `ID_CHARS`, else `ValueError`. That
      is: every character is an ID character, and at least one ID
      character does not occur in the value. */
  function Id(value: string): (r: Result<string, ParamError>)
    ensures r.Success? <==>
              (forall i :: 0 <= i < |value| ==> value[i] in IdChars) && exists c :: c in IdChars && c !in value
    ensures r.Success? ==> r.value == value
    ensures r.Failure? ==> r.error == InvalidCharacter(value)
  {
    if !(CharSet(value) < IdChars) then Failure(InvalidCharacter(value)) else Success(value)
  }

  /** The check as evidently intended (`<=`): a value is accepted exactly
      when each of its characters is an ID character. */
  function IdIntended(value: string): (r: Result<string, ParamError>)
    ensures r.Success? <==> forall i :: 0 <= i < |value| ==> value[i] in IdChars
    ensures r.Success? ==> r.value == value
    ensures r.Failure? ==> r.error == InvalidCharacter(value)
  {
    if !(CharSet(value) <= IdChars) then Failure(InvalidCharacter(value)) else Success(value)
  }

  /** A string has no more distinct characters than it has characters. */
  lemma {:induction false} CharSetSize(s: string)
    ensures |CharSet(s)| <= |s|
    decreases |s|
  {
    if s != [] {
      CharSetSize(s[1..]);
    }
  }

  /** A string without repeated characters has exactly as many distinct
      characters as characters. */
  lemma {:induction false} DistinctCharSetSize(s: string)
    requires Distinct(s)
    ensures |CharSet(s)| == |s|
    decreases |s|
  {
    if s != [] {
      assert Distinct(s[1..]) by {
        forall i, j | 0 <= i < j < |s[1..]| ensures s[1..][i] != s[1..][j] {
          assert s[1..][i] == s[i + 1] && s[1..][j] == s[j + 1];
        }
      }
      DistinctCharSetSize(s[1..]);
      assert s[0] !in CharSet(s[1..]);
    }
  }

  /** The ID string's characters fall in four disjoint ranges in order, so
      none repeats. */
  lemma IdCharStringDistinct()
    ensures |IdCharString| == 63
    ensures Distinct(IdCharString)
  {
  }

  /** `ID_CHARS` has 63 members. */
  lemma IdCharsSize()
    ensures |IdChars| == 63
  {
    IdCharStringDistinct();
    DistinctCharSetSize(IdCharString);
  }

  /** The empty string is accepted. */
  lemma IdAcceptsEmpty()
    ensures Id("") == Success("")
  {
  }

  /** A value with a character outside `ID_CHARS` is refused. */
  lemma IdRejectsInvalidCharacter(value: string, i: nat)
    requires i < |value| && value[i] !in IdChars
    ensures Id(value) == Failure(InvalidCharacter(value))
  {
  }

  /** Where the check bites as written: every value of valid characters
      shorter than 63 characters is accepted, so only values using all 63
      ID characters are refused on account of the proper subset. */
  lemma IdAcceptsShortValid(value: string)
    requires forall i :: 0 <= i < |value| ==> value[i] in IdChars
    requires |value| < 63
    ensures Id(value) == Success(value)
    ensures Id(value) == IdIntended(value)
  {
    var chars := CharSet(value);
    assert chars <= IdChars;
    CharSetSize(value);
    IdCharsSize();
    assert chars != IdChars by {
      assert |chars| < |IdChars|;
    }
  }

  /** The counterexample: the ID character string itself consists of valid
      characters only, yet `Id` refuses it; `IdIntended` accepts it. */
  lemma IdRejectsAllIdChars()
    ensures forall i :: 0 <= i < |IdCharString| ==> IdCharString[i] in IdChars
    ensures Id(IdCharString) == Failure(InvalidCharacter(IdCharString))
    ensures IdIntended(IdCharString) == Success(IdCharString)
  {
  }

  /** The two checks differ only on values that use every ID character. */
  lemma IdDiffersOnlyOnFullAlphabet(value: string)
    ensures Id(value) != IdIntended(value) <==> CharSet(value) == IdChars
  {
  }

  // ---------------------------------------------------------------------
  // Enumerated parameter types (hug's `OneOf` and `Mapping`)
  // ---------------------------------------------------------------------

  /** `OneOf(values)`: the value itself when listed, else `KeyError`. */
  function OneOf(values: seq<string>, value: string): (r: Result<string, ParamError>)
    ensures r.Success? <==> exists i :: 0 <= i < |values| && values[i] == value
    ensures r.Success? ==> r.value == value
    ensures r.Failure? ==> r.error == NotOneOf(value)
  {
    if value in values then Success(value) else Failure(NotOneOf(value))
  }

  /** `Mapping(m)`: the value the key maps to, else `KeyError`. */
  function Mapping<T>(m: map<string, T>, value: string): (r: Result<T, ParamError>)
    ensures r.Success? <==> value in m.Keys
    ensures r.Success? ==> r.value == m[value]
    ensures r.Failure? ==> r.error == NotOneOf(value)
  {
    if value in m then Success(m[value]) else Failure(NotOneOf(value))
  }

  const LevelValues: seq<string> := ["DEBUG", "INFO", "WARNING", "ERROR", "CRITICAL", "ALL"]
  const ActionValues: seq<string> := ["start", "stop", "restart", "reload", "status"]
  const GroupValues: seq<string> := ["collectors", "parsers", "experts", "outputs", "botnet"]
  const BotCmdValues: seq<string> := ["get", "pop", "send", "process"]
  const PageValues: seq<string> := ["configs", "management", "monitor", "check", "about", "index"]
  const BoolValues: map<string, bool> := map["true" := true, "false" := false]

  function Levels(value: string): (r: Result<string, ParamError>) { OneOf(LevelValues, value) }
  function Actions(value: string): (r: Result<string, ParamError>) { OneOf(ActionValues, value) }
  function Groups(value: string): (r: Result<string, ParamError>) { OneOf(GroupValues, value) }
  function BotCmds(value: string): (r: Result<string, ParamError>) { OneOf(BotCmdValues, value) }
  function Pages(value: string): (r: Result<string, ParamError>) { OneOf(PageValues, value) }
  function Bool(value: string): (r: Result<bool, ParamError>) { Mapping(BoolValues, value) }

  /** `Bool` maps exactly `"true"` to true and `"false"` to false. */
  lemma BoolExactly(value: string)
    ensures Bool(value) == (if value == "true" then Success(true)
                            else if value == "false" then Success(false)
                            else Failure(NotOneOf(value)))
  {
  }

  /** `Actions` accepts exactly the five listed actions, unchanged. */
  lemma ActionsExactly(value: string)
    ensures Actions(value).Success? <==>
              value == "start" || value == "stop" || value == "restart" || value == "reload" || value == "status"
    ensures Actions(value).Success? ==> Actions(value).value == value
  {
  }

  /** The other enumerations accept exactly their listed values. */
  lemma EnumerationsExactly(value: string)
    ensures Levels(value).Success? <==> value in {"DEBUG", "INFO", "WARNING", "ERROR", "CRITICAL", "ALL"}
    ensures Groups(value).Success? <==> value in {"collectors", "parsers", "experts", "outputs", "botnet"}
    ensures BotCmds(value).Success? <==> value in {"get", "pop", "send", "process"}
    ensures Pages(value).Success? <==> value in {"configs", "management", "monitor", "check", "about", "index"}
  {
  }

  // ---------------------------------------------------------------------
  // Start-up: `initialize_api`
  // ---------------------------------------------------------------------

  /** The store the session middleware uses: the placeholder installed at
      import time (`NoOpStore`, not defined in the modelled files), or a
      store over a database file. */
  datatype Store = NoOpStore | Sqlite(store: SessionStore)

  /** The fields of hug's `SessionMiddleware` that `initialize_api` sets. */
  class SessionMiddleware {
    var store: Store
    var cookieHttpOnly: Json
    var cookieSecure: Json

    constructor (store: Store, cookieHttpOnly: Json, cookieSecure: Json)
      ensures this.store == store && this.cookieHttpOnly == cookieHttpOnly && this.cookieSecure == cookieSecure
    {
      this.store := store;
      this.cookieHttpOnly := cookieHttpOnly;
      this.cookieSecure := cookieSecure;
    }
  }

  /** How the calls into the control tool (`runctl.RunIntelMQCtl(...)`,
      then `runner.get_paths()` and `file_access.update_from_runctl`) end.
      That module is not part of this model; its calls raise
      `IntelMQCtlError` on failure. */
  datatype RunctlOutcome = RunctlReturns | RunnerRaises | PathsRaise

  /** Why `initialize_api` stopped: `load_config` refused the file, or a
      call into the control tool raised. */
  datatype InitError = ConfigRefused(error: ConfigError) | RunctlRaised

  /** The module globals of the API: `api_config`, the command `runner`
      was built from, and `session_middleware`. */
  class ApiState {
    var apiConfig: Config
    var runnerCmd: Json
    const sessionMiddleware: SessionMiddleware

    /** Import time: default configuration, a runner on its command, and
        the middleware on the placeholder store. The middleware's initial
        cookie flags are the library's defaults, given as parameters. */
    constructor (libraryHttpOnly: Json, librarySecure: Json)
      ensures apiConfig == DefaultConfig && runnerCmd == DefaultConfig.intelmqCtlCmd
      ensures fresh(sessionMiddleware)
      ensures sessionMiddleware.store == NoOpStore
      ensures sessionMiddleware.cookieHttpOnly == libraryHttpOnly && sessionMiddleware.cookieSecure == librarySecure
    {
      apiConfig := DefaultConfig;
      runnerCmd := DefaultConfig.intelmqCtlCmd;
      sessionMiddleware := new SessionMiddleware(NoOpStore, libraryHttpOnly, librarySecure);
    }

    /** `initialize_api(filename)`, with the file already parsed into
        `configFile` (`None` when no filename is given) and with `runctl`
        saying how the calls into the control tool end. A configuration
        that `load_config` refuses changes nothing. Otherwise the
        configuration is replaced only when a file is given and the runner
        is rebuilt. If building the runner or asking it for its paths
        raises, the call stops there: the configuration (and, once built,
        the runner) stay replaced and the middleware is not touched. Only
        when both return are the real store and the cookie flags installed,
        and only when a session store is configured. */
    method InitializeApi(configFile: Option<RawConfig>, runctl: RunctlOutcome, fs: DbFiles)
      returns (outcome: Result<(), InitError>)
      modifies this, sessionMiddleware, fs
      ensures configFile.Some? && LoadConfig(configFile.value).Failure? ==>
                && outcome == Failure(ConfigRefused(LoadConfig(configFile.value).error))
                && unchanged(this, sessionMiddleware, fs)
      ensures !(configFile.Some? && LoadConfig(configFile.value).Failure?) ==>
                && apiConfig == (if configFile.Some? then LoadConfig(configFile.value).value else old(apiConfig))
                && runnerCmd == (if runctl == RunnerRaises then old(runnerCmd) else apiConfig.intelmqCtlCmd)
      ensures !(configFile.Some? && LoadConfig(configFile.value).Failure?) && runctl != RunctlReturns ==>
                && outcome == Failure(RunctlRaised)
                && unchanged(sessionMiddleware)
                && unchanged(fs)
      ensures outcome.Success? <==> !(configFile.Some? && LoadConfig(configFile.value).Failure?) && runctl == RunctlReturns
      ensures outcome.Success? && apiConfig.sessionStore.Some? ==>
                && sessionMiddleware.store.Sqlite?
                && fresh(sessionMiddleware.store.store)
                && sessionMiddleware.store.store.fs == fs
                && sessionMiddleware.store.store.dbname == apiConfig.sessionStore.value.text
                && sessionMiddleware.store.store.DbExists()
                && fs.files == OpenFiles(old(fs.files), apiConfig.sessionStore.value.text)
                && sessionMiddleware.cookieHttpOnly == apiConfig.sessionCookieHttpOnly
                && sessionMiddleware.cookieSecure == apiConfig.sessionCookieSecure
      ensures outcome.Success? && apiConfig.sessionStore.None? ==>
                && unchanged(sessionMiddleware)
                && unchanged(fs)
    {
      if configFile.Some? {
        var loaded := LoadConfig(configFile.value);
        if loaded.Failure? {
          return Failure(ConfigRefused(loaded.error));
        }
        apiConfig := loaded.value;
      }
      if runctl == RunnerRaises {
        return Failure(RunctlRaised);
      }
      runnerCmd := apiConfig.intelmqCtlCmd;
      if runctl == PathsRaise {
        return Failure(RunctlRaised);
      }
      var sessionFile := apiConfig.sessionStore;
      if sessionFile.Some? {
        var store := new SessionStore(fs, sessionFile.value.text);
        sessionMiddleware.store := Sqlite(store);
        sessionMiddleware.cookieHttpOnly := apiConfig.sessionCookieHttpOnly;
        sessionMiddleware.cookieSecure := apiConfig.sessionCookieSecure;
      }
      outcome := Success(());
    }
  }

  /** Start-up without a configuration file leaves the placeholder store
      in place: the default configuration names no session store. */
  method StartWithoutConfig(fs: DbFiles) returns (api: ApiState)
    modifies fs
    ensures api.sessionMiddleware.store == NoOpStore
    ensures api.sessionMiddleware.cookieHttpOnly == JBool(true) && api.sessionMiddleware.cookieSecure == JBool(true)
    ensures fs.files == old(fs.files)
  {
    api := new ApiState(JBool(true), JBool(true));
    var outcome := api.InitializeApi(None, RunctlReturns, fs);
  }
}
