/** The standalone bridge's configuration (config.py): the two string
    converters and the settings read from the process environment. */
module Config {
  import opened Wrappers
  import opened Text

  // ---------------------------------------------------------------------
  // str_to_bool
  // ---------------------------------------------------------------------

  /** `str_to_bool`: the stripped, lower-cased text is one of the four
      accepted spellings of "true". */
  function StrToBool(value: string): (r: bool)
    ensures r <==> Strip(Lower(value)) in {"true", "1", "yes", "on"}
  {
    LowerStripCommute(value);
    Lower(Strip(value)) in {"true", "1", "yes", "on"}
  }

  /** Case does not matter to `str_to_bool`. */
  lemma StrToBoolIgnoresCase(v1: string, v2: string)
    requires Lower(v1) == Lower(v2)
    ensures StrToBool(v1) == StrToBool(v2)
  {
    LowerStripCommute(v1);
    LowerStripCommute(v2);
  }

  /** Surrounding whitespace does not matter to `str_to_bool`. */
  lemma StrToBoolIgnoresPadding(w1: string, v: string, w2: string)
    requires AllSpace(w1) && AllSpace(w2)
    ensures StrToBool(w1 + v + w2) == StrToBool(v)
  {
    StripIgnoresPadding(w1, v, w2);
  }

  /** Upper-case spellings are accepted like their lower-case ones. */
  lemma StrToBoolOfUpper(v: string)
    ensures StrToBool(Upper(v)) == StrToBool(v)
  {
    LowerOfUpper(v);
    StrToBoolIgnoresCase(Upper(v), v);
  }

  /** The four accepted spellings, written in lower case. */
  lemma AcceptsLowerCase(s: string)
    requires s in {"true", "1", "yes", "on"}
    ensures StrToBool(s)
  {
    StripOfUnpadded(s);
    LowerOfLowerCase(s);
  }

  /** Any other unpadded lower-case text is rejected. */
  lemma RejectsLowerCase(s: string)
    requires s != [] && !IsSpace(s[0]) && !IsSpace(s[|s| - 1])
    requires forall i :: 0 <= i < |s| ==> !IsUpperLetter(s[i])
    requires s !in {"true", "1", "yes", "on"}
    ensures !StrToBool(s)
  {
    StripOfUnpadded(s);
    LowerOfLowerCase(s);
  }

  // ---------------------------------------------------------------------
  // str_to_int (Python's int() on ASCII text)
  // ---------------------------------------------------------------------

  /** The digits of an integer literal as `int()` accepts them: decimal
      digits, with single underscores allowed between two digits. */
  predicate IsDigitGroup(s: string) {
    && s != []
    && IsDigit(s[0]) && IsDigit(s[|s| - 1])
    && (forall i :: 0 <= i < |s| ==> IsDigit(s[i]) || s[i] == '_')
    && (forall i :: 0 <= i < |s| - 1 && s[i] == '_' ==> s[i + 1] != '_')
  }

  /** `s` with its underscores removed. */
  function DropUnderscores(s: string): (r: string)
    requires forall i :: 0 <= i < |s| ==> IsDigit(s[i]) || s[i] == '_'
    ensures AllDigits(r)
    ensures AllDigits(s) ==> r == s
  {
    if s == [] then []
    else if s[0] == '_' then DropUnderscores(s[1..])
    else [s[0]] + DropUnderscores(s[1..])
  }

  /** Python's `int(t)` for a string `t`: `None` stands for the ValueError
      it raises. `int()` strips whitespace itself, then reads an optional
      sign and a digit group. */
  function IntOf(t: string): (r: Option<int>)
    ensures r.Some? ==> Strip(t) != []
  {
    var u := Strip(t);
    if u != [] && (u[0] == '-' || u[0] == '+') then
      var body := u[1..];
      if IsDigitGroup(body) then
        var n: int := DigitsValue(DropUnderscores(body));
        Some(if u[0] == '-' then -n else n)
      else None
    else if IsDigitGroup(u) then Some(DigitsValue(DropUnderscores(u)))
    else None
  }

  /** `str_to_int(value, default)`: `value` is `None` when the variable is
      absent and the caller passes no string (the AttributeError path). */
  function StrToInt(value: Option<string>, default: int): (r: int)
    ensures value.None? ==> r == default
    ensures value.Some? && IntOf(value.value).None? ==> r == default
    ensures value.Some? && IntOf(value.value).Some? ==> r == IntOf(value.value).value
  {
    match value
    case None => default
    case Some(v) =>
      StripIdempotent(v);
      IntOf(Strip(v)).GetOr(default)
  }

  /** `str_to_int` reads back every integer that `str()` writes, whatever
      the default. */
  lemma StrToIntRoundTrip(n: int, default: int)
    ensures StrToInt(Some(Decimal(n)), default) == n
  {
    DecimalHasNoSpace(n);
    StripIdempotent(Decimal(n));
    var m: nat := if n < 0 then -n else n;
    var d := NatDigits(m);
    NatDigitsRoundTrip(m);
    assert IsDigitGroup(d);
    if n < 0 {
      assert Decimal(n)[1..] == d;
    }
  }

  /** Whitespace around the number does not change what is read. */
  lemma StrToIntIgnoresPadding(w1: string, n: int, w2: string, default: int)
    requires AllSpace(w1) && AllSpace(w2)
    ensures StrToInt(Some(w1 + Decimal(n) + w2), default) == n
  {
    StripIgnoresPadding(w1, Decimal(n), w2);
    StrToIntRoundTrip(n, default);
  }

  /** Text holding anything but digits, underscores and signs, once
      stripped, is not a number: the default comes back. */
  lemma StrToIntRejectsForeignCharacter(v: string, default: int, k: nat)
    requires k < |Strip(v)|
    requires !IsDigit(Strip(v)[k]) && Strip(v)[k] !in {'_', '+', '-'}
    ensures StrToInt(Some(v), default) == default
  {
    StripIdempotent(v);
    var u := Strip(v);
    if u[0] == '-' || u[0] == '+' {
      assert k > 0 && u[1..][k - 1] == u[k];
    }
  }

  // ---------------------------------------------------------------------
  // Settings read from the environment at import time
  // ---------------------------------------------------------------------

  /** The six polling intervals, in seconds. */
  datatype Intervals = Intervals(
    matrix: int, watch: int, mostWanted: int,
    activity: int, expeditions: int, livestreams: int)

  datatype Settings = Settings(
    apiKey: string, email: string, appPassword: string, callsign: string,
    broker: string, port: int, mqttUser: string, mqttPass: string,
    intervals: Intervals,
    discoveryPrefix: string, entityBase: string, debug: bool)

  /** Why the module stops the process at import time. */
  datatype StartupError = MissingCredentials | MissingBroker

  datatype Startup = Started(settings: Settings) | Exited(error: StartupError)

  /** `os.environ.get(name, default)`. */
  function EnvGet(env: map<string, string>, name: string, default: string): string {
    if name in env then env[name] else default
  }

  /** An integer variable (the MQTT port or an interval): its integer
      value, or `default` when it is absent or not an integer. */
  function IntSetting(env: map<string, string>, name: string, default: nat): (r: int)
    ensures name !in env ==> r == default
    ensures name in env ==> r == StrToInt(Some(env[name]), default)
    ensures name in env && IntOf(env[name]).None? ==> r == default
  {
    StrToIntRoundTrip(default, default);
    StrToInt(Some(EnvGet(env, name, Decimal(default))), default)
  }

  /** A variable holding the decimal text of `n`, padded or not, sets the
      setting to `n`. */
  lemma IntSettingReads(env: map<string, string>, name: string, default: nat, n: int)
    requires name in env && Strip(env[name]) == Decimal(n)
    ensures IntSetting(env, name, default) == n
  {
    var a, b := StripSplits(env[name]);
    StrToIntIgnoresPadding(env[name][..a], n, env[name][b..], default);
  }

  /** The default of `DEBUG_MODE`, the text "False", reads as false. */
  lemma DebugDefaultIsOff()
    ensures !StrToBool("False")
  {
    StripOfUnpadded("False");
    assert Lower("False") == "false";
  }

  /** Everything config.py computes when it is imported: either the
      settings, or the reason it exits. The credential check comes first. */
  function LoadConfig(env: map<string, string>): (r: Startup)
    ensures r.Exited? && r.error == MissingCredentials <==>
              EnvGet(env, "CLUBLOG_API_KEY", "") == "" || EnvGet(env, "CLUBLOG_EMAIL", "") == ""
              || EnvGet(env, "CLUBLOG_APP_PASSWORD", "") == "" || EnvGet(env, "MY_CALLSIGN", "") == ""
    ensures r.Exited? && r.error == MissingBroker <==>
              && EnvGet(env, "CLUBLOG_API_KEY", "") != "" && EnvGet(env, "CLUBLOG_EMAIL", "") != ""
              && EnvGet(env, "CLUBLOG_APP_PASSWORD", "") != "" && EnvGet(env, "MY_CALLSIGN", "") != ""
              && EnvGet(env, "HA_MQTT_BROKER", "") == ""
    ensures r.Started? ==>
              && r.settings.apiKey != "" && r.settings.email != ""
              && r.settings.appPassword != "" && r.settings.callsign != ""
              && r.settings.broker != ""
    ensures r.Started? ==>
              && ("MATRIX_INTERVAL" !in env ==> r.settings.intervals.matrix == 3600)
              && ("WATCH_INTERVAL" !in env ==> r.settings.intervals.watch == 600)
              && ("MOST_WANTED_INTERVAL" !in env ==> r.settings.intervals.mostWanted == 604800)
              && ("ACTIVITY_INTERVAL" !in env ==> r.settings.intervals.activity == 86400)
              && ("EXPEDITIONS_INTERVAL" !in env ==> r.settings.intervals.expeditions == 3600)
              && ("LIVESTREAMS_INTERVAL" !in env ==> r.settings.intervals.livestreams == 600)
    ensures r.Started? ==>
              && ("HA_MQTT_PORT" !in env ==> r.settings.port == 1883)
              && ("HA_DISCOVERY_PREFIX" !in env ==> r.settings.discoveryPrefix == "homeassistant")
              && ("HA_ENTITY_BASE" !in env ==> r.settings.entityBase == "clublog")
              && ("DEBUG_MODE" !in env ==> !r.settings.debug)
  {
    var apiKey := EnvGet(env, "CLUBLOG_API_KEY", "");
    var email := EnvGet(env, "CLUBLOG_EMAIL", "");
    var appPassword := EnvGet(env, "CLUBLOG_APP_PASSWORD", "");
    var callsign := EnvGet(env, "MY_CALLSIGN", "");
    if apiKey == "" || email == "" || appPassword == "" || callsign == "" then
      Exited(MissingCredentials)
    else
      var broker := EnvGet(env, "HA_MQTT_BROKER", "");
      if broker == "" then Exited(MissingBroker)
      else
        DebugDefaultIsOff();
        Started(Settings(
          apiKey, email, appPassword, callsign,
          broker, IntSetting(env, "HA_MQTT_PORT", 1883),
          EnvGet(env, "HA_MQTT_USER", ""), EnvGet(env, "HA_MQTT_PASS", ""),
          Intervals(
            IntSetting(env, "MATRIX_INTERVAL", 3600),
            IntSetting(env, "WATCH_INTERVAL", 600),
            IntSetting(env, "MOST_WANTED_INTERVAL", 604800),
            IntSetting(env, "ACTIVITY_INTERVAL", 86400),
            IntSetting(env, "EXPEDITIONS_INTERVAL", 3600),
            IntSetting(env, "LIVESTREAMS_INTERVAL", 600)),
          EnvGet(env, "HA_DISCOVERY_PREFIX", "homeassistant"),
          EnvGet(env, "HA_ENTITY_BASE", "clublog"),
          StrToBool(EnvGet(env, "DEBUG_MODE", "False"))))
  }

  /** A start takes each setting from its variable when that is present:
      strings as they are, the port and the intervals through `str_to_int`
      and the debug flag through `str_to_bool`. */
  lemma LoadConfigReads(env: map<string, string>)
    ensures var r := LoadConfig(env); r.Started? ==>
              && "CLUBLOG_API_KEY" in env && r.settings.apiKey == env["CLUBLOG_API_KEY"]
              && "CLUBLOG_EMAIL" in env && r.settings.email == env["CLUBLOG_EMAIL"]
              && "CLUBLOG_APP_PASSWORD" in env && r.settings.appPassword == env["CLUBLOG_APP_PASSWORD"]
              && "MY_CALLSIGN" in env && r.settings.callsign == env["MY_CALLSIGN"]
              && "HA_MQTT_BROKER" in env && r.settings.broker == env["HA_MQTT_BROKER"]
    ensures var r := LoadConfig(env); r.Started? ==>
              && r.settings.mqttUser == (if "HA_MQTT_USER" in env then env["HA_MQTT_USER"] else "")
              && r.settings.mqttPass == (if "HA_MQTT_PASS" in env then env["HA_MQTT_PASS"] else "")
              && ("HA_DISCOVERY_PREFIX" in env ==> r.settings.discoveryPrefix == env["HA_DISCOVERY_PREFIX"])
              && ("HA_ENTITY_BASE" in env ==> r.settings.entityBase == env["HA_ENTITY_BASE"])
              && ("DEBUG_MODE" in env ==> r.settings.debug == StrToBool(env["DEBUG_MODE"]))
    ensures var r := LoadConfig(env); r.Started? ==>
              && ("HA_MQTT_PORT" in env ==> r.settings.port == StrToInt(Some(env["HA_MQTT_PORT"]), 1883))
              && ("MATRIX_INTERVAL" in env ==> r.settings.intervals.matrix == StrToInt(Some(env["MATRIX_INTERVAL"]), 3600))
              && ("WATCH_INTERVAL" in env ==> r.settings.intervals.watch == StrToInt(Some(env["WATCH_INTERVAL"]), 600))
              && ("MOST_WANTED_INTERVAL" in env ==>
                    r.settings.intervals.mostWanted == StrToInt(Some(env["MOST_WANTED_INTERVAL"]), 604800))
              && ("ACTIVITY_INTERVAL" in env ==>
                    r.settings.intervals.activity == StrToInt(Some(env["ACTIVITY_INTERVAL"]), 86400))
              && ("EXPEDITIONS_INTERVAL" in env ==>
                    r.settings.intervals.expeditions == StrToInt(Some(env["EXPEDITIONS_INTERVAL"]), 3600))
              && ("LIVESTREAMS_INTERVAL" in env ==>
                    r.settings.intervals.livestreams == StrToInt(Some(env["LIVESTREAMS_INTERVAL"]), 600))
  {
  }
}
