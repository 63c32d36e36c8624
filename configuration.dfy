/** Configuration of the manager (intelmq_manager/config.py): fixed
    defaults, and the merge of a parsed JSON configuration over them. */
module Configuration {
  import opened Wrappers
  import opened JsonValue

  /** `pathlib.Path`, by its text (normalisation is not modelled). */
  datatype Path = Path(text: string)

  /** The top-level object of a configuration file, after `json.load`. */
  type RawConfig = map<string, Json>

  /** A configuration. The cookie flags hold whatever the file gave, as the
      source assigns the raw value without checking that it is a boolean. */
  datatype Config = Config(
    intelmqCtlCmd: Json,
    allowedPath: Path,
    sessionStore: Option<Path>,
    sessionCookieHttpOnly: Json,
    sessionCookieSecure: Json)

  /** The class-level defaults of `Config`. */
  const DefaultConfig: Config := Config(
    JArray([JString("sudo"), JString("-u"), JString("intelmq"), JString("/usr/local/bin/intelmqctl")]),
    Path("/opt/intelmq/var/lib/bots/"),
    None,
    JBool(true),
    JBool(true))

  /** `Path(v)` raises `TypeError` for anything but a string. */
  datatype ConfigError = NotAPath(key: string, value: Json)

  /** The keys `load_config` looks at; every other key is ignored. */
  const RecognisedKeys: set<string> :=
    {"intelmq_ctl_cmd", "allowed_path", "session_store", "session_cookie_http_only", "session_cookie_secure"}

  /** The key is present with a value `Path` cannot take. */
  predicate BadPath(raw: RawConfig, key: string)
  {
    key in raw && !raw[key].JString?
  }

  /** `raw.get(key, default)`. */
  function GetOr(raw: RawConfig, key: string, default: Json): (v: Json)
  {
    if key in raw then raw[key] else default
  }

  /** `load_config` after the file has been parsed: start from the
      defaults and override each recognised key that is present. */
  function LoadConfig(raw: RawConfig): (r: Result<Config, ConfigError>)
    ensures r.Failure? <==> BadPath(raw, "allowed_path") || BadPath(raw, "session_store")
    ensures r.Failure? && BadPath(raw, "allowed_path") ==>
              r.error == NotAPath("allowed_path", raw["allowed_path"])
    ensures r.Failure? && !BadPath(raw, "allowed_path") ==>
              r.error == NotAPath("session_store", raw["session_store"])
    ensures r.Success? ==>
              && r.value.intelmqCtlCmd == (if "intelmq_ctl_cmd" in raw then raw["intelmq_ctl_cmd"] else DefaultConfig.intelmqCtlCmd)
              && r.value.allowedPath == (if "allowed_path" in raw then Path(raw["allowed_path"].s) else DefaultConfig.allowedPath)
              && r.value.sessionStore == (if "session_store" in raw then Some(Path(raw["session_store"].s)) else None)
              && r.value.sessionCookieHttpOnly == (if "session_cookie_http_only" in raw then raw["session_cookie_http_only"] else JBool(true))
              && r.value.sessionCookieSecure == (if "session_cookie_secure" in raw then raw["session_cookie_secure"] else JBool(true))
  {
    var config := DefaultConfig;
    var config := if "intelmq_ctl_cmd" in raw then config.(intelmqCtlCmd := raw["intelmq_ctl_cmd"]) else config;
    if BadPath(raw, "allowed_path") then Failure(NotAPath("allowed_path", raw["allowed_path"]))
    else
      var config := if "allowed_path" in raw then config.(allowedPath := Path(raw["allowed_path"].s)) else config;
      if BadPath(raw, "session_store") then Failure(NotAPath("session_store", raw["session_store"]))
      else
        var config := if "session_store" in raw then config.(sessionStore := Some(Path(raw["session_store"].s))) else config;
        var config := config.(sessionCookieHttpOnly := GetOr(raw, "session_cookie_http_only", config.sessionCookieHttpOnly));
        Success(config.(sessionCookieSecure := GetOr(raw, "session_cookie_secure", config.sessionCookieSecure)))
  }

  /** The defaults: no session store, both cookie flags on. */
  lemma DefaultConfigValues()
    ensures DefaultConfig.sessionStore == None
    ensures DefaultConfig.sessionCookieHttpOnly == JBool(true) && DefaultConfig.sessionCookieSecure == JBool(true)
    ensures LoadConfig(map[]) == Success(DefaultConfig)
  {
  }

  /** A session store is configured exactly when the key is present. */
  lemma SessionStoreIffKey(raw: RawConfig)
    requires LoadConfig(raw).Success?
    ensures LoadConfig(raw).value.sessionStore.Some? <==> "session_store" in raw
  {
  }

  /** Adding, changing or removing a key `load_config` does not recognise
      changes nothing in the result. */
  lemma UnrecognisedKeyIgnored(raw: RawConfig, key: string, v: Json)
    requires key !in RecognisedKeys
    ensures LoadConfig(raw[key := v]) == LoadConfig(raw)
    ensures LoadConfig(raw - {key}) == LoadConfig(raw)
  {
  }

  /** Only the recognised keys matter: the result depends on the raw
      configuration restricted to them. */
  lemma OnlyRecognisedKeysMatter(raw: RawConfig, raw': RawConfig)
    requires forall k :: k in RecognisedKeys ==> (k in raw <==> k in raw')
    requires forall k :: k in RecognisedKeys && k in raw ==> raw[k] == raw'[k]
    ensures LoadConfig(raw) == LoadConfig(raw')
  {
  }
}
