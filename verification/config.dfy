/** Configuration loading and validation (config.py): `UtterTypeConfig`
    read from the environment, its `validate` rule table, the hotkey-format
    heuristic, the logging summary and the cached module-level instance.

    The environment is a map from names to values. Decimal strings are
    parsed by `Numerals.ParseInt`; the float parser is a parameter
    `parseFloat`, with `None` for a string Python's `float` rejects. The
    exceptions become `ConfigError` values and the warning messages become
    `Warning` values that carry what the message shows. */
module Config {
  import opened Wrappers
  import opened Env
  import opened Text
  import opened Numerals

  const API_KEY_VAR: string := "OPENAI_API_KEY"
  const BASE_URL_VAR: string := "OPENAI_BASE_URL"
  const CHAT_MODEL_VAR: string := "OPENAI_CHAT_MODEL"
  const MODEL_NAME_VAR: string := "OPENAI_MODEL_NAME"
  const RECORD_HOTKEYS_VAR: string := "UTTERTYPE_RECORD_HOTKEYS"
  const AI_HOTKEYS_VAR: string := "UTTERTYPE_AI_HOTKEYS"
  const EMAIL_HOTKEY_VAR: string := "UTTERTYPE_EMAIL_HOTKEY"
  const MIN_TRANSCRIPTION_SIZE_VAR: string := "UTTERTYPE_MIN_TRANSCRIPTION_SIZE_MS"
  const AUDIO_DEVICE_INDEX_VAR: string := "UTTERTYPE_AUDIO_DEVICE_INDEX"
  const AI_TEMPERATURE_VAR: string := "UTTERTYPE_AI_TEMPERATURE"
  const EMAIL_TEMPERATURE_VAR: string := "UTTERTYPE_EMAIL_TEMPERATURE"
  const MAX_TOKENS_VAR: string := "UTTERTYPE_MAX_TOKENS"
  const LOG_LEVEL_VAR: string := "UTTERTYPE_LOG_LEVEL"
  const VAD_ENABLED_VAR: string := "UTTERTYPE_VAD_ENABLED"
  const DEBOUNCE_TIME_VAR: string := "UTTERTYPE_DEBOUNCE_TIME_SEC"
  const MAX_DISPLAY_TEXT_LENGTH_VAR: string := "UTTERTYPE_MAX_DISPLAY_TEXT_LENGTH"
  const CONSOLE_REFRESH_DELAY_VAR: string := "UTTERTYPE_CONSOLE_REFRESH_DELAY"

  /** The fields of `UtterTypeConfig`, validation flags aside. */
  datatype Settings = Settings(
    apiKey: string,
    baseUrl: string,
    chatModel: string,
    modelName: string,
    recordHotkeys: string,
    aiHotkeys: string,
    emailHotkey: string,
    minTranscriptionSizeMs: int,
    audioDeviceIndex: Option<int>,
    aiTemperature: real,
    emailTemperature: real,
    maxTokens: int,
    logLevel: string,
    vadEnabled: Option<bool>,
    debounceTimeSec: real,
    maxDisplayTextLength: int,
    consoleRefreshDelay: real)

  /** The dataclass defaults around a given key. */
  function DefaultSettings(apiKey: string): Settings {
    Settings(
      apiKey, "https://api.openai.com/v1", "gpt-4o-mini", "whisper-1",
      "<ctrl>+<alt>+q", "<ctrl>+<alt>+a", "<ctrl>+<alt>+<shift>+e",
      1500, None, 0.3, 0.2, 1000, "INFO", None, 2.0, 50, 0.1)
  }

  /** The `ConfigurationError`s the module raises. */
  datatype ConfigError =
    | MissingApiKey
    | InvalidInteger(name: string, value: string)
    | InvalidFloat(name: string, value: string)
    | InvalidBoolean(name: string, lowered: string)
    | InvalidBaseUrl(url: string)
    | InvalidLogLevel(level: string)
    | AiTemperatureOutOfRange(temperature: real)
    | EmailTemperatureOutOfRange(temperature: real)
    | MinTranscriptionSizeNotPositive(size: int)
    | MaxTokensNotPositive(tokens: int)
    | NegativeDebounce(seconds: real)

  /** The warnings `validate` records. */
  datatype Warning =
    | ApiKeyFormat
    | HotkeyFormat(name: string, value: string)
    | HighAiTemperature(temperature: real)
    | HighMaxTokens(tokens: int)

  /** `_parse_int`: the default when unset, the parsed value when it parses,
      an error naming the variable and the raw value otherwise. */
  function ParseIntVar(env: Environment, name: string, default: int): (r: Result<int, ConfigError>)
    ensures name !in env ==> r == Success(default)
    ensures name in env ==> match ParseInt(env[name])
      case Some(n) => r == Success(n)
      case None => r == Failure(InvalidInteger(name, env[name]))
  {
    match Lookup(env, name)
    case None => Success(default)
    case Some(value) =>
      match ParseInt(value)
      case Some(n) => Success(n)
      case None => Failure(InvalidInteger(name, value))
  }

  /** `_parse_optional_int`: like `_parse_int` with no value for unset. */
  function ParseOptionalIntVar(env: Environment, name: string): (r: Result<Option<int>, ConfigError>)
    ensures name !in env ==> r == Success(None)
    ensures name in env ==> match ParseInt(env[name])
      case Some(n) => r == Success(Some(n))
      case None => r == Failure(InvalidInteger(name, env[name]))
  {
    match Lookup(env, name)
    case None => Success(None)
    case Some(value) =>
      match ParseInt(value)
      case Some(n) => Success(Some(n))
      case None => Failure(InvalidInteger(name, value))
  }

  /** `_parse_float`, over the given float parser. */
  function ParseFloatVar(env: Environment, name: string, default: real, parseFloat: string -> Option<real>): (r: Result<real, ConfigError>)
    ensures name !in env ==> r == Success(default)
    ensures name in env ==> match parseFloat(env[name])
      case Some(x) => r == Success(x)
      case None => r == Failure(InvalidFloat(name, env[name]))
  {
    match Lookup(env, name)
    case None => Success(default)
    case Some(value) =>
      match parseFloat(value)
      case Some(x) => Success(x)
      case None => Failure(InvalidFloat(name, value))
  }

  /** An unset integer variable gives the default; a set but empty one is
      an error, not the default, since `int("")` raises; a set one holding
      a number with whitespace around it gives that number. */
  lemma ParseIntVarCases(env: Environment, name: string, default: int, pad: string, n: int, pad': string)
    requires AllIntSpace(pad) && AllIntSpace(pad')
    ensures ParseIntVar(env - {name}, name, default) == Success(default)
    ensures ParseIntVar(env[name := ""], name, default) == Failure(InvalidInteger(name, ""))
    ensures ParseIntVar(env[name := pad + IntToString(n) + pad'], name, default) == Success(n)
  {
    ParsePaddedInt(pad, n, pad');
  }

  /** The same three cases for `_parse_optional_int`, with no value for an
      unset variable. */
  lemma ParseOptionalIntVarCases(env: Environment, name: string, pad: string, n: int, pad': string)
    requires AllIntSpace(pad) && AllIntSpace(pad')
    ensures ParseOptionalIntVar(env - {name}, name) == Success(None)
    ensures ParseOptionalIntVar(env[name := ""], name) == Failure(InvalidInteger(name, ""))
    ensures ParseOptionalIntVar(env[name := pad + IntToString(n) + pad'], name) == Success(Some(n))
  {
    ParsePaddedInt(pad, n, pad');
  }

  /** An unset float variable gives the default; a set one is read by the
      float parser alone, whatever the default, and a value the parser
      rejects (as `float("")` is) is an error naming the variable and the
      raw value. */
  lemma ParseFloatVarCases(env: Environment, name: string, default: real, default': real, parseFloat: string -> Option<real>, value: string)
    ensures ParseFloatVar(env - {name}, name, default, parseFloat) == Success(default)
    ensures ParseFloatVar(env[name := value], name, default, parseFloat) == ParseFloatVar(env[name := value], name, default', parseFloat)
    ensures parseFloat(value).None? ==>
      ParseFloatVar(env[name := value], name, default, parseFloat) == Failure(InvalidFloat(name, value))
  {
  }

  const TRUE_WORDS: seq<string> := ["true", "1", "yes", "on", "enabled"]
  const FALSE_WORDS: seq<string> := ["false", "0", "no", "off", "disabled"]

  /** The boolean a lower-cased word stands for, if any. */
  function BoolWord(lowered: string): (r: Option<bool>)
    ensures r == Some(true) <==> lowered in TRUE_WORDS
    ensures r == Some(false) <==> lowered in FALSE_WORDS
  {
    if lowered in TRUE_WORDS then Some(true)
    else if lowered in FALSE_WORDS then Some(false)
    else None
  }

  /** `_parse_optional_bool`. */
  function ParseOptionalBoolVar(env: Environment, name: string): (r: Result<Option<bool>, ConfigError>)
    ensures name !in env ==> r == Success(None)
  {
    match Lookup(env, name)
    case None => Success(None)
    case Some(value) =>
      var lowered := Lower(value);
      match BoolWord(lowered)
      case Some(b) => Success(Some(b))
      case None => Failure(InvalidBoolean(name, lowered))
  }

  /** A set boolean variable reads true exactly for the five true words,
      false exactly for the five false words, in any letter case, and is an
      error otherwise; the error shows the lower-cased value. */
  lemma ParseOptionalBoolSpec(env: Environment, name: string)
    requires name in env
    ensures var r := ParseOptionalBoolVar(env, name);
      && (r == Success(Some(true)) <==> Lower(env[name]) in TRUE_WORDS)
      && (r == Success(Some(false)) <==> Lower(env[name]) in FALSE_WORDS)
      && (r.Failure? <==> Lower(env[name]) !in TRUE_WORDS + FALSE_WORDS)
      && (r.Failure? ==> r.error == InvalidBoolean(name, Lower(env[name])))
  {
    assert Lookup(env, name) == Some(env[name]);
  }

  /** Upper-casing the value does not change how it reads. */
  lemma ParseOptionalBoolCaseInsensitive(env: Environment, name: string)
    requires name in env
    ensures ParseOptionalBoolVar(env[name := Upper(env[name])], name) == ParseOptionalBoolVar(env, name)
  {
    LowerOfUpper(env[name]);
  }

  /** `from_env`'s construction of the dataclass, in the order Python
      evaluates the keyword arguments: the key check first, then each parse,
      the first failing one giving the error. */
  function LoadSettings(env: Environment, parseFloat: string -> Option<real>): (r: Result<Settings, ConfigError>)
  {
    var apiKey := GetEnv(env, API_KEY_VAR, "");
    if apiKey == "" then Failure(MissingApiKey)
    else
      var d := DefaultSettings(apiKey);
      var minMs :- ParseIntVar(env, MIN_TRANSCRIPTION_SIZE_VAR, d.minTranscriptionSizeMs);
      var device :- ParseOptionalIntVar(env, AUDIO_DEVICE_INDEX_VAR);
      var aiTemperature :- ParseFloatVar(env, AI_TEMPERATURE_VAR, d.aiTemperature, parseFloat);
      var emailTemperature :- ParseFloatVar(env, EMAIL_TEMPERATURE_VAR, d.emailTemperature, parseFloat);
      var maxTokens :- ParseIntVar(env, MAX_TOKENS_VAR, d.maxTokens);
      var logLevel := Upper(GetEnv(env, LOG_LEVEL_VAR, d.logLevel));
      var vad :- ParseOptionalBoolVar(env, VAD_ENABLED_VAR);
      var debounce :- ParseFloatVar(env, DEBOUNCE_TIME_VAR, d.debounceTimeSec, parseFloat);
      var maxDisplay :- ParseIntVar(env, MAX_DISPLAY_TEXT_LENGTH_VAR, d.maxDisplayTextLength);
      var refresh :- ParseFloatVar(env, CONSOLE_REFRESH_DELAY_VAR, d.consoleRefreshDelay, parseFloat);
      Success(Settings(
        apiKey,
        GetEnv(env, BASE_URL_VAR, d.baseUrl),
        GetEnv(env, CHAT_MODEL_VAR, d.chatModel),
        GetEnv(env, MODEL_NAME_VAR, d.modelName),
        GetEnv(env, RECORD_HOTKEYS_VAR, d.recordHotkeys),
        GetEnv(env, AI_HOTKEYS_VAR, d.aiHotkeys),
        GetEnv(env, EMAIL_HOTKEY_VAR, d.emailHotkey),
        minMs, device, aiTemperature, emailTemperature, maxTokens,
        logLevel, vad, debounce, maxDisplay, refresh))
  }

  /** Loading fails with the missing-key error exactly when the key is unset
      or empty. */
  lemma LoadMissingKey(env: Environment, parseFloat: string -> Option<real>)
    ensures LoadSettings(env, parseFloat) == Failure(MissingApiKey)
      <==> API_KEY_VAR !in env || env[API_KEY_VAR] == ""
  {
    var r := LoadSettings(env, parseFloat);
    if API_KEY_VAR in env && env[API_KEY_VAR] != "" {
      if r.Failure? {
        assert r.error != MissingApiKey;
      }
    }
  }

  /** With only the key set, every other field takes its dataclass default
      (and the two optional ones are `None`). */
  lemma LoadDefaults(env: Environment, parseFloat: string -> Option<real>)
    requires API_KEY_VAR in env && env[API_KEY_VAR] != ""
    requires env.Keys == {API_KEY_VAR}
    ensures LoadSettings(env, parseFloat) == Success(DefaultSettings(env[API_KEY_VAR]))
  {
    assert "INFO" == Upper("INFO");
  }

  /** Every loaded field comes from its variable: the key as given, the
      strings as given or defaulted, the log level upper-cased, and each
      number, set, as its variable parses. A set integer variable that does
      not parse therefore makes loading fail. */
  lemma LoadedFields(env: Environment, parseFloat: string -> Option<real>)
    requires LoadSettings(env, parseFloat).Success?
    ensures var s := LoadSettings(env, parseFloat).value;
      var d := DefaultSettings(s.apiKey);
      && API_KEY_VAR in env && s.apiKey == env[API_KEY_VAR] != ""
      && s.baseUrl == GetEnv(env, BASE_URL_VAR, d.baseUrl)
      && s.chatModel == GetEnv(env, CHAT_MODEL_VAR, d.chatModel)
      && s.modelName == GetEnv(env, MODEL_NAME_VAR, d.modelName)
      && s.recordHotkeys == GetEnv(env, RECORD_HOTKEYS_VAR, d.recordHotkeys)
      && s.aiHotkeys == GetEnv(env, AI_HOTKEYS_VAR, d.aiHotkeys)
      && s.emailHotkey == GetEnv(env, EMAIL_HOTKEY_VAR, d.emailHotkey)
      && s.logLevel == Upper(GetEnv(env, LOG_LEVEL_VAR, d.logLevel))
      && ParseIntVar(env, MIN_TRANSCRIPTION_SIZE_VAR, d.minTranscriptionSizeMs) == Success(s.minTranscriptionSizeMs)
      && ParseOptionalIntVar(env, AUDIO_DEVICE_INDEX_VAR) == Success(s.audioDeviceIndex)
      && ParseIntVar(env, MAX_TOKENS_VAR, d.maxTokens) == Success(s.maxTokens)
      && ParseIntVar(env, MAX_DISPLAY_TEXT_LENGTH_VAR, d.maxDisplayTextLength) == Success(s.maxDisplayTextLength)
      && ParseOptionalBoolVar(env, VAD_ENABLED_VAR) == Success(s.vadEnabled)
      && ParseFloatVar(env, AI_TEMPERATURE_VAR, d.aiTemperature, parseFloat) == Success(s.aiTemperature)
      && ParseFloatVar(env, EMAIL_TEMPERATURE_VAR, d.emailTemperature, parseFloat) == Success(s.emailTemperature)
      && ParseFloatVar(env, DEBOUNCE_TIME_VAR, d.debounceTimeSec, parseFloat) == Success(s.debounceTimeSec)
      && ParseFloatVar(env, CONSOLE_REFRESH_DELAY_VAR, d.consoleRefreshDelay, parseFloat) == Success(s.consoleRefreshDelay)
  {
  }

  /** An integer variable that is set but does not parse makes loading fail,
      whatever the other variables hold. */
  lemma BadIntegerFails(env: Environment, parseFloat: string -> Option<real>, name: string)
    requires name in {MIN_TRANSCRIPTION_SIZE_VAR, AUDIO_DEVICE_INDEX_VAR, MAX_TOKENS_VAR, MAX_DISPLAY_TEXT_LENGTH_VAR}
    requires name in env && ParseInt(env[name]).None?
    ensures LoadSettings(env, parseFloat).Failure?
  {
    if LoadSettings(env, parseFloat).Success? {
      LoadedFields(env, parseFloat);
    }
  }

  /** The loaded log level is upper case. */
  lemma LoadedLogLevelIsUpper(env: Environment, parseFloat: string -> Option<real>)
    requires LoadSettings(env, parseFloat).Success?
    ensures var level := LoadSettings(env, parseFloat).value.logLevel; Upper(level) == level
  {
    LoadedFields(env, parseFloat);
    UpperIdempotent(GetEnv(env, LOG_LEVEL_VAR, "INFO"));
  }

  const LOG_LEVELS: seq<string> := ["DEBUG", "INFO", "WARNING", "ERROR", "CRITICAL"]

  /** The first hard error of `validate`, in the order it checks. */
  function ValidationError(s: Settings): (e: Option<ConfigError>)
    ensures e.None? ==>
      && (StartsWith(s.baseUrl, "http://") || StartsWith(s.baseUrl, "https://"))
      && s.logLevel in LOG_LEVELS
      && 0.0 <= s.aiTemperature <= 2.0 && 0.0 <= s.emailTemperature <= 2.0
      && s.minTranscriptionSizeMs > 0 && s.maxTokens > 0 && s.debounceTimeSec >= 0.0
  {
    if !StartsWith(s.baseUrl, "http://") && !StartsWith(s.baseUrl, "https://") then Some(InvalidBaseUrl(s.baseUrl))
    else if s.logLevel !in LOG_LEVELS then Some(InvalidLogLevel(s.logLevel))
    else if !(0.0 <= s.aiTemperature <= 2.0) then Some(AiTemperatureOutOfRange(s.aiTemperature))
    else if !(0.0 <= s.emailTemperature <= 2.0) then Some(EmailTemperatureOutOfRange(s.emailTemperature))
    else if s.minTranscriptionSizeMs <= 0 then Some(MinTranscriptionSizeNotPositive(s.minTranscriptionSizeMs))
    else if s.maxTokens <= 0 then Some(MaxTokensNotPositive(s.maxTokens))
    else if s.debounceTimeSec < 0.0 then Some(NegativeDebounce(s.debounceTimeSec))
    else None
  }

  /** The hard rules are exactly the source's: no error iff every rule
      holds, and a failing rule always yields an error. */
  lemma ValidationErrorIff(s: Settings)
    ensures ValidationError(s).None? <==>
      && (StartsWith(s.baseUrl, "http://") || StartsWith(s.baseUrl, "https://"))
      && s.logLevel in LOG_LEVELS
      && 0.0 <= s.aiTemperature <= 2.0 && 0.0 <= s.emailTemperature <= 2.0
      && s.minTranscriptionSizeMs > 0 && s.maxTokens > 0 && s.debounceTimeSec >= 0.0
  {
  }

  /** The key-format warning, the only one recorded before the hard checks. */
  function KeyWarnings(s: Settings): (w: seq<Warning>)
    ensures w == [] || w == [ApiKeyFormat]
  {
    if !StartsWith(s.apiKey, "sk-") && !StartsWith(s.apiKey, "sk-proj-") then [ApiKeyFormat] else []
  }

  /** Every key starting with `sk-proj-` starts with `sk-`, so the warning is
      about `sk-` alone. */
  lemma KeyWarningIff(s: Settings)
    ensures KeyWarnings(s) == [ApiKeyFormat] <==> !StartsWith(s.apiKey, "sk-")
  {
    if StartsWith(s.apiKey, "sk-proj-") {
      assert s.apiKey[..3] == s.apiKey[..8][..3];
    }
  }

  /** A hotkey warning for the named value, if its format fails. */
  function HotkeyWarning(name: string, value: string): (w: seq<Warning>)
    ensures w == [] <==> IsValidHotkeyFormat(value)
  {
    if IsValidHotkeyFormat(value) then [] else [HotkeyFormat(name, value)]
  }

  /** The three hotkeys `validate` checks, in order. */
  function Hotkeys(s: Settings): seq<(string, string)> {
    [("record_hotkeys", s.recordHotkeys), ("ai_hotkeys", s.aiHotkeys), ("email_hotkey", s.emailHotkey)]
  }

  /** The performance warnings, recorded last. */
  function PerformanceWarnings(s: Settings): (w: seq<Warning>)
    ensures HighAiTemperature(s.aiTemperature) in w <==> s.aiTemperature > 1.0
    ensures HighMaxTokens(s.maxTokens) in w <==> s.maxTokens > 2000
    ensures forall x :: x in w ==> x.HighAiTemperature? || x.HighMaxTokens?
  {
    (if s.aiTemperature > 1.0 then [HighAiTemperature(s.aiTemperature)] else [])
      + (if s.maxTokens > 2000 then [HighMaxTokens(s.maxTokens)] else [])
  }

  /** The warnings a passing `validate` leaves, in the order it records them. */
  function Warnings(s: Settings): seq<Warning> {
    KeyWarnings(s) + HotkeyWarnings(Hotkeys(s)) + PerformanceWarnings(s)
  }

  /** Each warning of a passing `validate` is there exactly when its rule
      fires, and there are at most six. */
  lemma WarningsSpec(s: Settings)
    ensures |Warnings(s)| <= 6
    ensures ApiKeyFormat in Warnings(s) <==> !StartsWith(s.apiKey, "sk-")
    ensures HighAiTemperature(s.aiTemperature) in Warnings(s) <==> s.aiTemperature > 1.0
    ensures HighMaxTokens(s.maxTokens) in Warnings(s) <==> s.maxTokens > 2000
    ensures forall i :: 0 <= i < |Hotkeys(s)| ==>
      (HotkeyFormat(Hotkeys(s)[i].0, Hotkeys(s)[i].1) in Warnings(s) <==> !IsValidHotkeyFormat(Hotkeys(s)[i].1))
  {
    var k := KeyWarnings(s);
    var h := HotkeyWarnings(Hotkeys(s));
    var p := PerformanceWarnings(s);
    KeyWarningIff(s);
    HotkeyWarningsOnly(Hotkeys(s));
    HotkeyWarningsLength(Hotkeys(s));
    assert Warnings(s) == k + h + p;
    forall i | 0 <= i < |Hotkeys(s)|
      ensures HotkeyFormat(Hotkeys(s)[i].0, Hotkeys(s)[i].1) in Warnings(s) <==> !IsValidHotkeyFormat(Hotkeys(s)[i].1)
    {
      var hk := Hotkeys(s);
      var x := HotkeyFormat(hk[i].0, hk[i].1);
      assert x in Warnings(s) <==> x in h;
      HotkeyWarningsMember(hk, i);
    }
  }

  const HOTKEY_PATTERNS: seq<string> := [
    "<ctrl>+<alt>+", "<ctrl>+<shift>+", "<alt>+<shift>+", "<ctrl>+", "<alt>+", "<shift>+",
    "f1", "f2", "f3", "f4", "f5", "f6", "f7", "f8", "f9", "f10", "f11", "f12"]

  /** `any(p in s for p in patterns)`. */
  predicate ContainsAny(s: string, patterns: seq<string>)
    decreases |patterns|
  {
    patterns != [] && (Contains(s, patterns[0]) || ContainsAny(s, patterns[1..]))
  }

  /** `_is_valid_hotkey_format`: a non-empty string that, lower-cased,
      contains one of the patterns or starts with `f`. */
  predicate IsValidHotkeyFormat(hotkey: string)
    ensures hotkey == "" ==> !IsValidHotkeyFormat(hotkey)
  {
    hotkey != "" &&
      var lowered := Lower(hotkey);
      ContainsAny(lowered, HOTKEY_PATTERNS) || StartsWith(lowered, "f")
  }

  /** `p` occurs inside `q`, and `q` inside `s`, so `p` inside `s`. */
  lemma ContainsTrans(s: string, q: string, p: string)
    requires Contains(s, q) && Contains(q, p)
    ensures Contains(s, p)
  {
    ContainsIff(s, q);
    ContainsIff(q, p);
    var i :| OccursAt(s, q, i);
    var j :| OccursAt(q, p, j);
    assert q == s[i..i + |q|];
    SliceOfSlice(s, i, i + |q|, j, j + |p|);
    assert OccursAt(s, p, i + j);
    ContainsIff(s, p);
  }

  lemma SliceOfSlice<X>(r: seq<X>, a: nat, b: nat, c: nat, d: nat)
    requires a <= b <= |r| && c <= d <= b - a
    ensures r[a..b][c..d] == r[a + c..a + d]
  {
    var x := r[a..b][c..d];
    var y := r[a + c..a + d];
    assert |x| == |y|;
    forall k | 0 <= k < |x|
      ensures x[k] == y[k]
    {
    }
  }


  /** The pattern list says less than it seems: the three two-modifier
      patterns contain a one-modifier pattern and `f10`-`f12` contain `f1`,
      so the check is whether the lower-cased hotkey contains `<ctrl>+`,
      `<alt>+`, `<shift>+` or one of `f1`-`f9`, or starts with `f`. */
  lemma HotkeyFormatSimplified(hotkey: string)
    ensures var l := Lower(hotkey);
      IsValidHotkeyFormat(hotkey) <==>
        (hotkey != "" && (ContainsAny(l, HOTKEY_PATTERNS[3..15]) || StartsWith(l, "f")))
  {
    var l := Lower(hotkey);
    var ps := HOTKEY_PATTERNS;
    ContainsAnySplit(l, ps, 3);
    ContainsAnySplit(l, ps[3..], 12);
    assert ps[3..][..12] == ps[3..15];
    assert ps[3..][12..] == ps[15..];
    if ContainsAny(l, ps[..3]) {
      var k :| 0 <= k < 3 && Contains(l, ps[..3][k]) by { ContainsAnyWitness(l, ps[..3]); }
      var q := ps[k];
      var m := if k == 2 then 4 else 3;
      assert q[..|ps[m]|] == ps[m];
      assert Contains(q, ps[m]);
      ContainsTrans(l, q, ps[m]);
      ContainsAnyMember(l, ps[3..15], m - 3);
    }
    if ContainsAny(l, ps[15..]) {
      var k :| 0 <= k < 3 && Contains(l, ps[15..][k]) by { ContainsAnyWitness(l, ps[15..]); }
      var q := ps[15 + k];
      assert q[..2] == "f1";
      assert Contains(q, "f1");
      ContainsTrans(l, q, "f1");
      ContainsAnyMember(l, ps[3..15], 3);
    }
  }

  lemma {:induction false} ContainsAnySplit(s: string, ps: seq<string>, n: nat)
    requires n <= |ps|
    ensures ContainsAny(s, ps) <==> ContainsAny(s, ps[..n]) || ContainsAny(s, ps[n..])
    decreases n
  {
    if n > 0 {
      assert ps[..n][1..] == ps[1..][..n - 1];
      assert ps[n..] == ps[1..][n - 1..];
      ContainsAnySplit(s, ps[1..], n - 1);
    } else {
      assert ps[n..] == ps;
    }
  }

  lemma {:induction false} ContainsAnyWitness(s: string, ps: seq<string>)
    requires ContainsAny(s, ps)
    ensures exists k :: 0 <= k < |ps| && Contains(s, ps[k])
    decreases |ps|
  {
    if !Contains(s, ps[0]) {
      ContainsAnyWitness(s, ps[1..]);
      var k :| 0 <= k < |ps[1..]| && Contains(s, ps[1..][k]);
      assert Contains(s, ps[k + 1]);
    }
  }

  lemma {:induction false} ContainsAnyMember(s: string, ps: seq<string>, k: nat)
    requires k < |ps| && Contains(s, ps[k])
    ensures ContainsAny(s, ps)
    decreases k
  {
    if k > 0 {
      ContainsAnyMember(s, ps[1..], k - 1);
    }
  }

  /** The three default hotkeys pass the format check. */
  lemma DefaultHotkeysValid(apiKey: string)
    ensures var d := DefaultSettings(apiKey);
      IsValidHotkeyFormat(d.recordHotkeys) && IsValidHotkeyFormat(d.aiHotkeys) && IsValidHotkeyFormat(d.emailHotkey)
  {
    var d := DefaultSettings(apiKey);
    DefaultHotkeyValid(d.recordHotkeys);
    DefaultHotkeyValid(d.aiHotkeys);
    DefaultHotkeyValid(d.emailHotkey);
  }

  lemma DefaultHotkeyValid(h: string)
    requires |h| >= 7 && h[..7] == "<ctrl>+"
    ensures IsValidHotkeyFormat(h)
  {
    var l := Lower(h);
    assert l[..7] == "<ctrl>+";
    assert Contains(l, "<ctrl>+");
    ContainsAnyMember(l, HOTKEY_PATTERNS, 3);
  }

  /** The dataclass defaults pass validation and leave at most the key
      warning. */
  lemma DefaultsValidate(apiKey: string)
    ensures ValidationError(DefaultSettings(apiKey)) == None
    ensures Warnings(DefaultSettings(apiKey)) == KeyWarnings(DefaultSettings(apiKey))
  {
    var d := DefaultSettings(apiKey);
    DefaultHotkeysValid(apiKey);
    HotkeyWarningsAllValid3(d.recordHotkeys, d.aiHotkeys, d.emailHotkey);
    assert StartsWith(d.baseUrl, "https://");
  }

  /** The key's presence as `get_summary` reports it, and everything else it
      reports; the key itself is left out. */
  datatype Summary = Summary(
    baseUrl: string,
    chatModel: string,
    modelName: string,
    recordHotkeys: string,
    aiHotkeys: string,
    emailHotkey: string,
    minTranscriptionSizeMs: int,
    audioDeviceIndex: Option<int>,
    aiTemperature: real,
    emailTemperature: real,
    maxTokens: int,
    logLevel: string,
    vadEnabled: Option<bool>,
    apiKeySet: bool,
    validationWarningsCount: nat,
    validated: bool)

  /** `UtterTypeConfig` with its two validation flags. */
  class UtterTypeConfig {
    const settings: Settings
    var validated: bool
    var validationWarnings: seq<Warning>

    constructor (settings: Settings)
      ensures this.settings == settings
      ensures !validated && validationWarnings == []
    {
      this.settings := settings;
      validated := false;
      validationWarnings := [];
    }

    /** `validate`: clears the warnings, records the key warning, runs the
        hard checks (stopping at the first failure, with the warnings so far
        kept and the flag untouched), then records the hotkey and
        performance warnings and sets the flag. Because the list is cleared
        first, the outcome never depends on an earlier call. */
    method Validate() returns (outcome: Outcome<ConfigError>)
      modifies this`validated, this`validationWarnings
      ensures ValidationError(settings).Some? ==>
        && outcome == Fail(ValidationError(settings).value)
        && validationWarnings == KeyWarnings(settings)
        && validated == old(validated)
      ensures ValidationError(settings).None? ==>
        && outcome == Pass
        && validationWarnings == Warnings(settings)
        && validated
    {
      validationWarnings := [];
      if !StartsWith(settings.apiKey, "sk-") && !StartsWith(settings.apiKey, "sk-proj-") {
        validationWarnings := validationWarnings + [ApiKeyFormat];
      }
      assert validationWarnings == KeyWarnings(settings);
      var s := settings;
      if !StartsWith(s.baseUrl, "http://") && !StartsWith(s.baseUrl, "https://") {
        return Fail(InvalidBaseUrl(s.baseUrl));
      }
      if s.logLevel !in LOG_LEVELS {
        return Fail(InvalidLogLevel(s.logLevel));
      }
      if !(0.0 <= s.aiTemperature <= 2.0) {
        return Fail(AiTemperatureOutOfRange(s.aiTemperature));
      }
      if !(0.0 <= s.emailTemperature <= 2.0) {
        return Fail(EmailTemperatureOutOfRange(s.emailTemperature));
      }
      if s.minTranscriptionSizeMs <= 0 {
        return Fail(MinTranscriptionSizeNotPositive(s.minTranscriptionSizeMs));
      }
      if s.maxTokens <= 0 {
        return Fail(MaxTokensNotPositive(s.maxTokens));
      }
      if s.debounceTimeSec < 0.0 {
        return Fail(NegativeDebounce(s.debounceTimeSec));
      }
      ghost var keyWarnings := validationWarnings;
      AppendHotkeyWarnings();
      ghost var hotkeyWarnings := HotkeyWarnings(Hotkeys(s));
      AppendPerformanceWarnings();
      assert validationWarnings == keyWarnings + hotkeyWarnings + PerformanceWarnings(s);
      validated := true;
      return Pass;
    }

    /** The loop of `validate` over the three hotkeys: a warning for each
        one whose format fails, in order. */
    method AppendHotkeyWarnings()
      modifies this`validationWarnings
      ensures validationWarnings == old(validationWarnings) + HotkeyWarnings(Hotkeys(settings))
    {
      var hotkeys := Hotkeys(settings);
      for i := 0 to |hotkeys|
        invariant validationWarnings == old(validationWarnings) + HotkeyWarnings(hotkeys[..i])
      {
        var (name, value) := hotkeys[i];
        ghost var prev := validationWarnings;
        if !IsValidHotkeyFormat(value) {
          validationWarnings := validationWarnings + [HotkeyFormat(name, value)];
        }
        assert validationWarnings == prev + HotkeyWarning(name, value);
        assert hotkeys[..i + 1][..i] == hotkeys[..i];
        assert HotkeyWarnings(hotkeys[..i + 1]) == HotkeyWarnings(hotkeys[..i]) + HotkeyWarning(name, value);
      }
      assert hotkeys[..|hotkeys|] == hotkeys;
    }

    /** The two performance warnings of `validate`. */
    method AppendPerformanceWarnings()
      modifies this`validationWarnings
      ensures validationWarnings == old(validationWarnings) + PerformanceWarnings(settings)
    {
      if settings.aiTemperature > 1.0 {
        validationWarnings := validationWarnings + [HighAiTemperature(settings.aiTemperature)];
      }
      if settings.maxTokens > 2000 {
        validationWarnings := validationWarnings + [HighMaxTokens(settings.maxTokens)];
      }
    }

    /** `get_summary`: every setting but the key, whether a key is set, the
        number of warnings and the validation flag. */
    function GetSummary(): (r: Summary)
      reads this
      ensures r.apiKeySet <==> settings.apiKey != ""
      ensures r.validationWarningsCount == |validationWarnings| && r.validated == validated
    {
      var s := settings;
      Summary(
        s.baseUrl, s.chatModel, s.modelName, s.recordHotkeys, s.aiHotkeys, s.emailHotkey,
        s.minTranscriptionSizeMs, s.audioDeviceIndex, s.aiTemperature, s.emailTemperature,
        s.maxTokens, s.logLevel, s.vadEnabled, s.apiKey != "", |validationWarnings|, validated)
    }
  }

  /** The hotkey warnings for a list of (name, value) pairs, in order. */
  function HotkeyWarnings(hotkeys: seq<(string, string)>): seq<Warning>
    decreases |hotkeys|
  {
    if hotkeys == [] then []
    else HotkeyWarnings(hotkeys[..|hotkeys| - 1]) + HotkeyWarning(hotkeys[|hotkeys| - 1].0, hotkeys[|hotkeys| - 1].1)
  }

  lemma {:induction false} HotkeyWarningsOnly(hotkeys: seq<(string, string)>)
    ensures forall x :: x in HotkeyWarnings(hotkeys) ==> x.HotkeyFormat?
    decreases |hotkeys|
  {
    if hotkeys != [] {
      HotkeyWarningsOnly(hotkeys[..|hotkeys| - 1]);
    }
  }

  lemma {:induction false} HotkeyWarningsAllValid(hotkeys: seq<(string, string)>)
    requires forall j :: 0 <= j < |hotkeys| ==> IsValidHotkeyFormat(hotkeys[j].1)
    ensures HotkeyWarnings(hotkeys) == []
    decreases |hotkeys|
  {
    if hotkeys != [] {
      HotkeyWarningsAllValid(hotkeys[..|hotkeys| - 1]);
    }
  }

  lemma HotkeyWarningsAllValid3(record: string, ai: string, email: string)
    requires IsValidHotkeyFormat(record) && IsValidHotkeyFormat(ai) && IsValidHotkeyFormat(email)
    ensures HotkeyWarnings([("record_hotkeys", record), ("ai_hotkeys", ai), ("email_hotkey", email)]) == []
  {
    HotkeyWarningsAllValid([("record_hotkeys", record), ("ai_hotkeys", ai), ("email_hotkey", email)]);
  }

  lemma {:induction false} HotkeyWarningsLength(hotkeys: seq<(string, string)>)
    ensures |HotkeyWarnings(hotkeys)| <= |hotkeys|
    decreases |hotkeys|
  {
    if hotkeys != [] {
      HotkeyWarningsLength(hotkeys[..|hotkeys| - 1]);
    }
  }

  /** The warning for hotkey `i` is present exactly when its format fails,
      provided the names are distinct. */
  lemma {:induction false} HotkeyWarningsMember(hotkeys: seq<(string, string)>, i: nat)
    requires i < |hotkeys|
    requires forall j, k :: 0 <= j < k < |hotkeys| ==> hotkeys[j].0 != hotkeys[k].0
    ensures HotkeyFormat(hotkeys[i].0, hotkeys[i].1) in HotkeyWarnings(hotkeys) <==> !IsValidHotkeyFormat(hotkeys[i].1)
    decreases |hotkeys|
  {
    var n := |hotkeys| - 1;
    var prefix := hotkeys[..n];
    var x := HotkeyFormat(hotkeys[i].0, hotkeys[i].1);
    var valid := IsValidHotkeyFormat(hotkeys[i].1);
    var earlier := HotkeyWarnings(prefix);
    var last := HotkeyWarning(hotkeys[n].0, hotkeys[n].1);
    assert HotkeyWarnings(hotkeys) == earlier + last;
    if i < n {
      assert prefix[i] == hotkeys[i];
      HotkeyWarningsMember(prefix, i);
      assert x in earlier <==> !valid;
      assert x !in last;
    } else {
      HotkeyWarningsNames(prefix, hotkeys[n].0);
      assert x !in earlier;
      assert x in last <==> !valid;
    }
    assert x in earlier + last <==> x in earlier || x in last;
  }

  /** A name not among the pairs has no warning in their list. */
  lemma {:induction false} HotkeyWarningsNames(hotkeys: seq<(string, string)>, name: string)
    requires forall j :: 0 <= j < |hotkeys| ==> hotkeys[j].0 != name
    ensures forall x :: x in HotkeyWarnings(hotkeys) ==> x.HotkeyFormat? && x.name != name
    decreases |hotkeys|
  {
    if hotkeys != [] {
      HotkeyWarningsNames(hotkeys[..|hotkeys| - 1], name);
    }
  }

  /** The summary is safe for logging: two configurations whose keys differ,
      both non-empty, summarise identically. */
  lemma SummaryHidesKey(a: UtterTypeConfig, b: UtterTypeConfig)
    requires a.settings.(apiKey := b.settings.apiKey) == b.settings
    requires a.settings.apiKey != "" && b.settings.apiKey != ""
    requires |a.validationWarnings| == |b.validationWarnings| && a.validated == b.validated
    ensures a.GetSummary() == b.GetSummary()
  {
  }

  /** What `from_env(validate)` produces, as a value: the loaded settings,
      or the first loading error, or, when validating, the first hard
      validation error. */
  function FromEnvResult(env: Environment, parseFloat: string -> Option<real>, validate: bool): Result<Settings, ConfigError> {
    var s :- LoadSettings(env, parseFloat);
    if validate && ValidationError(s).Some? then Failure(ValidationError(s).value) else Success(s)
  }

  /** A missing key fails `from_env`, validating or not. */
  lemma FromEnvMissingKey(env: Environment, parseFloat: string -> Option<real>, validate: bool)
    requires API_KEY_VAR !in env || env[API_KEY_VAR] == ""
    ensures FromEnvResult(env, parseFloat, validate) == Failure(MissingApiKey)
  {
    LoadMissingKey(env, parseFloat);
  }

  /** With only a key set, `from_env` succeeds with the defaults, validating
      or not. */
  lemma FromEnvDefaults(env: Environment, parseFloat: string -> Option<real>, validate: bool)
    requires API_KEY_VAR in env && env[API_KEY_VAR] != ""
    requires env.Keys == {API_KEY_VAR}
    ensures FromEnvResult(env, parseFloat, validate) == Success(DefaultSettings(env[API_KEY_VAR]))
  {
    LoadDefaults(env, parseFloat);
    DefaultsValidate(env[API_KEY_VAR]);
  }

  /** Without validation, `from_env` fails only as loading does. */
  lemma FromEnvWithoutValidation(env: Environment, parseFloat: string -> Option<real>)
    ensures FromEnvResult(env, parseFloat, false) == LoadSettings(env, parseFloat)
  {
  }

  /** `UtterTypeConfig.from_env`: loads, builds a fresh configuration and,
      when asked, validates it. */
  method FromEnv(env: Environment, parseFloat: string -> Option<real>, validate: bool)
    returns (r: Result<UtterTypeConfig, ConfigError>)
    ensures r.Failure? <==> FromEnvResult(env, parseFloat, validate).Failure?
    ensures r.Failure? ==> r.error == FromEnvResult(env, parseFloat, validate).error
    ensures r.Success? ==>
      && fresh(r.value)
      && r.value.settings == FromEnvResult(env, parseFloat, validate).value
      && r.value.validated == validate
      && r.value.validationWarnings == (if validate then Warnings(r.value.settings) else [])
  {
    var loaded := LoadSettings(env, parseFloat);
    if loaded.Failure? {
      return Failure(loaded.error);
    }
    var config := new UtterTypeConfig(loaded.value);
    if validate {
      var outcome := config.Validate();
      if outcome.Fail? {
        return Failure(outcome.error);
      }
    }
    return Success(config);
  }

  /** The module-level `_config` cache. */
  class ConfigCache {
    var config: Option<UtterTypeConfig>

    constructor ()
      ensures config == None
    {
      config := None;
    }

    /** `get_config(reload)`: the cached instance unless there is none or a
        reload is asked for; then a fresh `from_env()`, cached only when it
        succeeds. */
    method GetConfig(reload: bool, env: Environment, parseFloat: string -> Option<real>)
      returns (r: Result<UtterTypeConfig, ConfigError>)
      modifies this
      ensures old(config).Some? && !reload ==> r == Success(old(config).value) && config == old(config)
      ensures old(config).None? || reload ==>
        && (r.Failure? <==> FromEnvResult(env, parseFloat, true).Failure?)
        && (r.Failure? ==> r.error == FromEnvResult(env, parseFloat, true).error && config == old(config))
        && (r.Success? ==>
              (fresh(r.value) && config == Some(r.value)
               && r.value.settings == FromEnvResult(env, parseFloat, true).value && r.value.validated))
    {
      if config.None? || reload {
        var loaded := FromEnv(env, parseFloat, true);
        if loaded.Failure? {
          return Failure(loaded.error);
        }
        config := Some(loaded.value);
      }
      return Success(config.value);
    }

    /** `reset_config`. */
    method ResetConfig()
      modifies this
      ensures config == None
    {
      config := None;
    }
  }
}
