/**
 * The typed settings schema and how raw loaded data becomes settings
 * (src/cli/core/settings.py). Dynaconf's loading and merging of the built-in
 * providers file, the user settings file, the secrets file and the
 * environment is outside the model: its result is the ordered top-level
 * dictionary `raw`. What is modelled is the lower-casing of the top-level
 * keys and pydantic's validation into the schema with its defaults.
 */
module Settings {
  import opened Values
  import Strings

  datatype LogSettings = LogSettings(level: string, logfile: Option<string>)

  datatype LLMSettings = LLMSettings(provider: Option<string>, name: Option<string>)

  /** One provider's connection profile; `baseUrl` is the string form of the validated URL. */
  datatype ProviderSettings = ProviderSettings(
    baseUrl: string,
    authHeaderPrefix: string,
    modelsEndpoint: string,
    modelsResponsePath: string,
    modelIdKey: string,
    apiKey: Option<string>)

  /** `providers` keeps the dictionary's key order. */
  datatype AppSettings = AppSettings(log: LogSettings, model: LLMSettings, providers: seq<(string, ProviderSettings)>)

  const DefaultLevel := "DEBUG"
  const DefaultAuthHeaderPrefix := "Bearer"
  const DefaultModelsEndpoint := "/models"
  const DefaultModelsResponsePath := "data"
  const DefaultModelIdKey := "id"

  const DefaultLog := LogSettings(DefaultLevel, None)
  const DefaultModel := LLMSettings(None, None)
  const DefaultSettings := AppSettings(DefaultLog, DefaultModel, [])

  /** A provider record in which only `base_url` was given. */
  function ProviderWithDefaults(baseUrl: string): ProviderSettings {
    ProviderSettings(baseUrl, DefaultAuthHeaderPrefix, DefaultModelsEndpoint,
                     DefaultModelsResponsePath, DefaultModelIdKey, None)
  }

  /**
   * pydantic's `HttpUrl` type: the string form of the URL it accepts
   * (pydantic normalises, e.g. adding `/` after a bare host), or None when
   * it rejects the text. pydantic is not part of this model.
   */
  type UrlValidator = string -> Option<string>

  /** Where validation failed: the dotted location of the offending field. */
  datatype ValidationError = ValidationError(location: seq<string>)

  /** `sys.exit(code)` */
  datatype Exit = Exit(code: int)

  // ----- field validation -----

  /** A `str` field with a default: absent gives the default, a non-string is rejected. */
  function StrField(fields: seq<(string, Value)>, name: string, default: string): Result<string, ValidationError> {
    var f: Option<Value> := Get(fields, name);
    match f
    case None => Ok(default)
    case Some(Str(s)) => Ok(s)
    case Some(_) => Err(ValidationError([name]))
  }

  /** A `str | None = None` field. */
  function OptionalStrField(fields: seq<(string, Value)>, name: string): Result<Option<string>, ValidationError> {
    var f: Option<Value> := Get(fields, name);
    match f
    case None => Ok(None)
    case Some(Null) => Ok(None)
    case Some(Str(s)) => Ok(Some(s))
    case Some(_) => Err(ValidationError([name]))
  }

  predicate OptionalStrOk(fields: seq<(string, Value)>, name: string) {
    Get(fields, name).None? || Get(fields, name).value.Null? || Get(fields, name).value.Str?
  }

  predicate StrOk(fields: seq<(string, Value)>, name: string) {
    Get(fields, name).None? || Get(fields, name).value.Str?
  }

  /** The value a `str` field with a default ends up holding. */
  function StrOr(fields: seq<(string, Value)>, name: string, default: string): string {
    if Get(fields, name).Some? && Get(fields, name).value.Str? then Get(fields, name).value.s else default
  }

  function OptionalStr(fields: seq<(string, Value)>, name: string): Option<string> {
    if Get(fields, name).Some? && Get(fields, name).value.Str? then Some(Get(fields, name).value.s) else None
  }

  /** The record is a dictionary with a valid `base_url` and fields of the right types. */
  predicate ProviderRecordOk(v: Value, httpUrl: UrlValidator) {
    && v.Dict?
    && Get(v.entries, "base_url").Some? && Get(v.entries, "base_url").value.Str?
    && httpUrl(Get(v.entries, "base_url").value.s).Some?
    && StrOk(v.entries, "auth_header_prefix") && StrOk(v.entries, "models_endpoint")
    && StrOk(v.entries, "models_response_path") && StrOk(v.entries, "model_id_key")
    && OptionalStrOk(v.entries, "api_key")
  }

  /** Every field of `p` is the given value, or that field's default when it was omitted. */
  predicate ProviderFieldsFrom(p: ProviderSettings, fs: seq<(string, Value)>, httpUrl: UrlValidator)
    requires Get(fs, "base_url").Some? && Get(fs, "base_url").value.Str?
  {
    && Some(p.baseUrl) == httpUrl(Get(fs, "base_url").value.s)
    && p.authHeaderPrefix == StrOr(fs, "auth_header_prefix", "Bearer")
    && p.modelsEndpoint == StrOr(fs, "models_endpoint", "/models")
    && p.modelsResponsePath == StrOr(fs, "models_response_path", "data")
    && p.modelIdKey == StrOr(fs, "model_id_key", "id")
    && p.apiKey == OptionalStr(fs, "api_key")
  }

  /** `ProviderSettings.model_validate(v)`: `base_url` required, every other field defaulted when omitted. */
  function ValidateProvider(v: Value, httpUrl: UrlValidator): (r: Result<ProviderSettings, ValidationError>)
    ensures r.Ok? <==> ProviderRecordOk(v, httpUrl)
    ensures r.Ok? ==> ProviderFieldsFrom(r.value, v.entries, httpUrl)
  {
    match v
    case Dict(fs) =>
      var given: Option<Value> := Get(fs, "base_url");
      var baseUrl :- match given
        case Some(Str(s)) =>
          (match httpUrl(s) case Some(u) => Ok(u) case None => Err(ValidationError(["base_url"])))
        case _ => Err(ValidationError(["base_url"]));
      ValidateOptionalFields(fs, baseUrl)
    case _ => Err(ValidationError([]))
  }

  /** The fields after `base_url`, each defaulted when omitted. */
  function ValidateOptionalFields(fs: seq<(string, Value)>, baseUrl: string): (r: Result<ProviderSettings, ValidationError>)
    ensures r.Ok? <==> && StrOk(fs, "auth_header_prefix") && StrOk(fs, "models_endpoint")
                       && StrOk(fs, "models_response_path") && StrOk(fs, "model_id_key")
                       && OptionalStrOk(fs, "api_key")
    ensures r.Ok? ==> r.value == ProviderSettings(baseUrl,
                                   StrOr(fs, "auth_header_prefix", DefaultAuthHeaderPrefix),
                                   StrOr(fs, "models_endpoint", DefaultModelsEndpoint),
                                   StrOr(fs, "models_response_path", DefaultModelsResponsePath),
                                   StrOr(fs, "model_id_key", DefaultModelIdKey),
                                   OptionalStr(fs, "api_key"))
  {
    var prefix :- StrField(fs, "auth_header_prefix", DefaultAuthHeaderPrefix);
    var endpoint :- StrField(fs, "models_endpoint", DefaultModelsEndpoint);
    var path :- StrField(fs, "models_response_path", DefaultModelsResponsePath);
    var idKey :- StrField(fs, "model_id_key", DefaultModelIdKey);
    var apiKey :- OptionalStrField(fs, "api_key");
    Ok(ProviderSettings(baseUrl, prefix, endpoint, path, idKey, apiKey))
  }

  /** `dict[str, ProviderSettings]`: every value validated, keys and their order kept. */
  function ValidateProviders(entries: seq<(string, Value)>, httpUrl: UrlValidator): (r: Result<seq<(string, ProviderSettings)>, ValidationError>)
    ensures r.Ok? <==> forall i :: 0 <= i < |entries| ==> ValidateProvider(entries[i].1, httpUrl).Ok?
    ensures r.Ok? ==> |r.value| == |entries|
    ensures r.Ok? ==> forall i :: 0 <= i < |entries| ==> r.value[i] == (entries[i].0, ValidateProvider(entries[i].1, httpUrl).value)
  {
    if entries == [] then Ok([])
    else
      var tail := entries[1..];
      assert forall i :: 1 <= i < |entries| ==> tail[i - 1] == entries[i];
      match ValidateProvider(entries[0].1, httpUrl)
      case Err(e) => Err(ValidationError([entries[0].0] + e.location))
      case Ok(p) =>
        match ValidateProviders(tail, httpUrl)
        case Err(e) => Err(e)
        case Ok(rest) => Ok([(entries[0].0, p)] + rest)
  }

  /** `LogSettings`: an absent section is the default; a given one must be an object with well-typed fields. */
  function ValidateLog(v: Option<Value>): (r: Result<LogSettings, ValidationError>)
    ensures v.None? ==> r == Ok(DefaultLog)
    ensures v.Some? ==> (r.Ok? <==> v.value.Dict? && StrOk(v.value.entries, "level") && OptionalStrOk(v.value.entries, "logfile"))
    ensures v.Some? && r.Ok? ==>
              r.value == LogSettings(StrOr(v.value.entries, "level", DefaultLevel), OptionalStr(v.value.entries, "logfile"))
  {
    match v
    case None => Ok(DefaultLog)
    case Some(Dict(fs)) =>
      (match StrField(fs, "level", DefaultLevel)
       case Err(e) => Err(e)
       case Ok(level) =>
         match OptionalStrField(fs, "logfile")
         case Err(e) => Err(e)
         case Ok(logfile) => Ok(LogSettings(level, logfile)))
    case Some(_) => Err(ValidationError(["log"]))
  }

  /** `LLMSettings`: an absent section is the default; both fields are optional strings. */
  function ValidateModel(v: Option<Value>): (r: Result<LLMSettings, ValidationError>)
    ensures v.None? ==> r == Ok(DefaultModel)
    ensures v.Some? ==> (r.Ok? <==> v.value.Dict? && OptionalStrOk(v.value.entries, "provider") && OptionalStrOk(v.value.entries, "name"))
    ensures v.Some? && r.Ok? ==>
              r.value == LLMSettings(OptionalStr(v.value.entries, "provider"), OptionalStr(v.value.entries, "name"))
  {
    match v
    case None => Ok(DefaultModel)
    case Some(Dict(fs)) =>
      (match OptionalStrField(fs, "provider")
       case Err(e) => Err(e)
       case Ok(provider) =>
         match OptionalStrField(fs, "name")
         case Err(e) => Err(e)
         case Ok(name) => Ok(LLMSettings(provider, name)))
    case Some(_) => Err(ValidationError(["model"]))
  }

  /** `dict[str, ProviderSettings]`: an absent section is empty; a given one must be an object. */
  function ValidateProvidersSection(v: Option<Value>, httpUrl: UrlValidator): (r: Result<seq<(string, ProviderSettings)>, ValidationError>)
    ensures v.None? ==> r == Ok([])
    ensures v.Some? ==> (r.Ok? <==> v.value.Dict? && forall i :: 0 <= i < |v.value.entries| ==> ValidateProvider(v.value.entries[i].1, httpUrl).Ok?)
    ensures v.Some? && r.Ok? ==> Keys(r.value) == Keys(v.value.entries)
  {
    match v
    case None => Ok([])
    case Some(Dict(es)) => ValidateProviders(es, httpUrl)
    case Some(_) => Err(ValidationError(["providers"]))
  }

  /**
   * `AppSettings.model_validate(d)`: valid iff each section is; an absent
   * section takes its default, and top-level keys other than the three
   * sections are ignored.
   */
  function ValidateApp(d: seq<(string, Value)>, httpUrl: UrlValidator): (r: Result<AppSettings, ValidationError>)
    ensures r.Ok? <==> && ValidateLog(Get(d, "log")).Ok? && ValidateModel(Get(d, "model")).Ok?
                       && ValidateProvidersSection(Get(d, "providers"), httpUrl).Ok?
    ensures r.Ok? ==> && r.value.log == ValidateLog(Get(d, "log")).value
                      && r.value.model == ValidateModel(Get(d, "model")).value
                      && r.value.providers == ValidateProvidersSection(Get(d, "providers"), httpUrl).value
    ensures r.Ok? && Get(d, "log").None? ==> r.value.log == DefaultLog
    ensures r.Ok? && Get(d, "model").None? ==> r.value.model == DefaultModel
    ensures r.Ok? && Get(d, "providers").None? ==> r.value.providers == []
  {
    match ValidateLog(Get(d, "log"))
    case Err(e) => Err(e)
    case Ok(log) =>
      match ValidateModel(Get(d, "model"))
      case Err(e) => Err(e)
      case Ok(model) =>
        match ValidateProvidersSection(Get(d, "providers"), httpUrl)
        case Err(e) => Err(e)
        case Ok(providers) => Ok(AppSettings(log, model, providers))
  }

  /** Any top-level key other than `log`, `model` and `providers` has no effect on validation. */
  lemma ValidateAppIgnoresOtherKeys(d: seq<(string, Value)>, k: string, v: Value, httpUrl: UrlValidator)
    requires k != "log" && k != "model" && k != "providers"
    ensures ValidateApp(Set(d, k, v), httpUrl) == ValidateApp(d, httpUrl)
  {
    SetGet(d, k, v, "log");
    SetGet(d, k, v, "model");
    SetGet(d, k, v, "providers");
  }

  // ----- load_settings -----

  /** `{k.lower(): v for k, v in raw.items()}` */
  function LowerTopLevelKeys(raw: seq<(string, Value)>): (r: seq<(string, Value)>)
    ensures |r| <= |raw|
    ensures forall k :: k in Keys(r) ==> Strings.Lower(k) == k
    decreases |raw|
  {
    if raw == [] then []
    else
      var last := raw[|raw| - 1];
      var prev := LowerTopLevelKeys(raw[..|raw| - 1]);
      SetKeys(prev, Strings.Lower(last.0), last.1);
      Strings.LowerIdempotent(last.0);
      Set(prev, Strings.Lower(last.0), last.1)
  }

  /** `load_settings` after Dynaconf: lower-case the section names, then validate; failure exits with 1. */
  function LoadSettings(raw: seq<(string, Value)>, httpUrl: UrlValidator): (r: Result<AppSettings, Exit>)
    ensures r.Err? ==> r.error == Exit(1)
    ensures r.Ok? <==> ValidateApp(LowerTopLevelKeys(raw), httpUrl).Ok?
    ensures r.Ok? ==> r.value == ValidateApp(LowerTopLevelKeys(raw), httpUrl).value
  {
    match ValidateApp(LowerTopLevelKeys(raw), httpUrl)
    case Ok(s) => Ok(s)
    case Err(_) => Err(Exit(1))
  }

  /** `get_current_provider_settings`: the active provider's record, or exit 1. */
  function GetCurrentProviderSettings(settings: AppSettings): (r: Result<ProviderSettings, Exit>)
    ensures r.Ok? <==> settings.model.provider.Some? && settings.model.provider.value in Keys(settings.providers)
    ensures r.Ok? ==> Get(settings.providers, settings.model.provider.value) == Some(r.value)
    ensures r.Err? ==> r.error == Exit(1)
  {
    match settings.model.provider
    case None => Err(Exit(1))
    case Some(key) =>
      match Get(settings.providers, key)
      case Some(conf) => Ok(conf)
      case None => Err(Exit(1))
  }

  // ----- model_dump(mode="json") -----

  function DumpOptional(o: Option<string>): Value {
    match o
    case None => Null
    case Some(s) => Str(s)
  }

  /** A provider record as a dictionary, fields in declaration order. */
  function DumpProvider(p: ProviderSettings): (r: Value)
    ensures r.Dict? && DistinctKeys(r.entries)
    ensures Keys(r.entries) == ["base_url", "auth_header_prefix", "models_endpoint",
                                "models_response_path", "model_id_key", "api_key"]
  {
    Dict([("base_url", Str(p.baseUrl)),
          ("auth_header_prefix", Str(p.authHeaderPrefix)),
          ("models_endpoint", Str(p.modelsEndpoint)),
          ("models_response_path", Str(p.modelsResponsePath)),
          ("model_id_key", Str(p.modelIdKey)),
          ("api_key", DumpOptional(p.apiKey))])
  }

  function DumpProviders(ps: seq<(string, ProviderSettings)>): (r: seq<(string, Value)>)
    ensures Keys(r) == Keys(ps)
    ensures forall i :: 0 <= i < |ps| ==> r[i].1 == DumpProvider(ps[i].1)
  {
    seq(|ps|, i requires 0 <= i < |ps| => (ps[i].0, DumpProvider(ps[i].1)))
  }

  /** The whole settings object as nested dictionaries. */
  function DumpSettings(s: AppSettings): (r: Value)
    ensures r.Dict? && Keys(r.entries) == ["log", "model", "providers"]
    ensures r.entries[2].1 == Dict(DumpProviders(s.providers))
  {
    Dict([("log", Dict([("level", Str(s.log.level)), ("logfile", DumpOptional(s.log.logfile))])),
          ("model", Dict([("provider", DumpOptional(s.model.provider)), ("name", DumpOptional(s.model.name))])),
          ("providers", Dict(DumpProviders(s.providers)))])
  }

  // ----- properties -----

  /** With no loaded data at all, the settings are the schema defaults. */
  lemma EmptyDataGivesDefaults(httpUrl: UrlValidator)
    ensures LoadSettings([], httpUrl) == Ok(DefaultSettings)
    ensures DefaultSettings.log.level == "DEBUG" && DefaultSettings.log.logfile == None
    ensures DefaultSettings.model == LLMSettings(None, None) && DefaultSettings.providers == []
  {
  }

  /** A provider record giving only a valid `base_url` takes every other field's default. */
  lemma ProviderOmittedFieldsDefault(url: string, httpUrl: UrlValidator)
    requires httpUrl(url).Some?
    ensures ValidateProvider(Dict([("base_url", Str(url))]), httpUrl) == Ok(ProviderWithDefaults(httpUrl(url).value))
  {
  }

  /** Lower-casing only renames keys: every resulting key is a lowered input key and vice versa. */
  lemma {:induction false} LowerKeysAreLoweredInputKeys(raw: seq<(string, Value)>)
    ensures DistinctKeys(LowerTopLevelKeys(raw))
    ensures forall k :: k in Keys(LowerTopLevelKeys(raw)) <==> exists i :: 0 <= i < |raw| && Strings.Lower(raw[i].0) == k
    decreases |raw|
  {
    if raw != [] {
      var init := raw[..|raw| - 1];
      var last := raw[|raw| - 1];
      var prev := LowerTopLevelKeys(init);
      LowerKeysAreLoweredInputKeys(init);
      SetKeys(prev, Strings.Lower(last.0), last.1);
      SetDistinct(prev, Strings.Lower(last.0), last.1);
      assert raw == init + [last];
      forall k ensures k in Keys(LowerTopLevelKeys(raw)) <==> exists i :: 0 <= i < |raw| && Strings.Lower(raw[i].0) == k {
        LowerKeyStep(prev, init, last, k);
      }
    }
  }

  lemma LowerKeyStep(prev: seq<(string, Value)>, init: seq<(string, Value)>, last: (string, Value), k: string)
    requires k in Keys(prev) <==> exists i :: 0 <= i < |init| && Strings.Lower(init[i].0) == k
    ensures var raw := init + [last];
            k in Keys(Set(prev, Strings.Lower(last.0), last.1)) <==> exists i :: 0 <= i < |raw| && Strings.Lower(raw[i].0) == k
  {
    var raw := init + [last];
    var lk := Strings.Lower(last.0);
    SetKeys(prev, lk, last.1);
    var ks := Keys(Set(prev, lk, last.1));
    assert k in ks <==> k in Keys(prev) || k == lk by {
      if lk !in Keys(prev) {
        assert ks == Keys(prev) + [lk];
      }
    }
    assert raw[|init|] == last;
    if k in Keys(prev) {
      var i :| 0 <= i < |init| && Strings.Lower(init[i].0) == k;
      assert raw[i] == init[i];
    }
    if exists i :: 0 <= i < |raw| && Strings.Lower(raw[i].0) == k {
      var i :| 0 <= i < |raw| && Strings.Lower(raw[i].0) == k;
      if i < |init| { assert init[i] == raw[i]; }
    }
  }

  /**
   * Keys equal up to case collapse into one entry holding the value of the
   * LAST such key; values themselves (nested dictionaries included) are not touched.
   */
  lemma {:induction false} LowerKeysLastWins(raw: seq<(string, Value)>, i: nat)
    requires i < |raw|
    requires forall j :: i < j < |raw| ==> Strings.Lower(raw[j].0) != Strings.Lower(raw[i].0)
    ensures Get(LowerTopLevelKeys(raw), Strings.Lower(raw[i].0)) == Some(raw[i].1)
    decreases |raw|
  {
    var init := raw[..|raw| - 1];
    var last := raw[|raw| - 1];
    SetGet(LowerTopLevelKeys(init), Strings.Lower(last.0), last.1, Strings.Lower(raw[i].0));
    if i < |raw| - 1 {
      assert init[i] == raw[i];
      forall j | i < j < |init| ensures Strings.Lower(init[j].0) != Strings.Lower(init[i].0) {
        assert init[j] == raw[j];
      }
      LowerKeysLastWins(init, i);
    }
  }

  /** Every resulting entry pairs a lowered key with an input value, unchanged. */
  lemma {:induction false} LowerKeysKeepValues(raw: seq<(string, Value)>, k: string)
    requires Get(LowerTopLevelKeys(raw), k).Some?
    ensures exists i :: 0 <= i < |raw| && Strings.Lower(raw[i].0) == k && raw[i].1 == Get(LowerTopLevelKeys(raw), k).value
    decreases |raw|
  {
    var init := raw[..|raw| - 1];
    var last := raw[|raw| - 1];
    SetGet(LowerTopLevelKeys(init), Strings.Lower(last.0), last.1, k);
    if k != Strings.Lower(last.0) {
      LowerKeysKeepValues(init, k);
      var i :| 0 <= i < |init| && Strings.Lower(init[i].0) == k && init[i].1 == Get(LowerTopLevelKeys(init), k).value;
      assert raw[i] == init[i];
    } else {
      assert raw[|raw| - 1] == last;
    }
  }

  /** A section no top-level key spells, in any case, takes its default. */
  lemma LoadWithoutLogSection(raw: seq<(string, Value)>, httpUrl: UrlValidator)
    requires forall i :: 0 <= i < |raw| ==> Strings.Lower(raw[i].0) != "log"
    requires LoadSettings(raw, httpUrl).Ok?
    ensures LoadSettings(raw, httpUrl).value.log == DefaultLog
  {
    LowerKeysAreLoweredInputKeys(raw);
  }

  /** Of several spellings of `model`, the last one is the section that is validated. */
  lemma LoadUsesLastModelSpelling(raw: seq<(string, Value)>, i: nat, httpUrl: UrlValidator)
    requires i < |raw| && Strings.Lower(raw[i].0) == "model"
    requires forall j :: i < j < |raw| ==> Strings.Lower(raw[j].0) != "model"
    requires LoadSettings(raw, httpUrl).Ok?
    ensures && ValidateModel(Some(raw[i].1)).Ok?
            && LoadSettings(raw, httpUrl).value.model == ValidateModel(Some(raw[i].1)).value
  {
    LowerKeysLastWins(raw, i);
  }

  /** The active provider's record is exactly the entry stored under `model.provider`. */
  lemma CurrentProviderIsEntry(settings: AppSettings, i: nat)
    requires DistinctKeys(settings.providers) && i < |settings.providers|
    requires settings.model.provider == Some(settings.providers[i].0)
    ensures GetCurrentProviderSettings(settings) == Ok(settings.providers[i].1)
  {
    GetAt(settings.providers, i);
  }

  /**
   * Validating a dumped provider record gives the record back, as long as
   * the URL type leaves the string form of an accepted URL as it is.
   */
  lemma ProviderDumpRoundTrip(p: ProviderSettings, httpUrl: UrlValidator)
    requires httpUrl(p.baseUrl) == Some(p.baseUrl)
    ensures ValidateProvider(DumpProvider(p), httpUrl) == Ok(p)
  {
    var fs := DumpProvider(p).entries;
    DumpedLeadingFields(p);
    DumpedTrailingFields(p);
    ValidateGivenFields(fs, p, httpUrl);
  }

  /** A record holding every field with the right type validates to exactly those fields. */
  lemma ValidateGivenFields(fs: seq<(string, Value)>, p: ProviderSettings, httpUrl: UrlValidator)
    requires Get(fs, "base_url") == Some(Str(p.baseUrl)) && httpUrl(p.baseUrl) == Some(p.baseUrl)
    requires Get(fs, "auth_header_prefix") == Some(Str(p.authHeaderPrefix))
    requires Get(fs, "models_endpoint") == Some(Str(p.modelsEndpoint))
    requires Get(fs, "models_response_path") == Some(Str(p.modelsResponsePath))
    requires Get(fs, "model_id_key") == Some(Str(p.modelIdKey))
    requires Get(fs, "api_key") == Some(DumpOptional(p.apiKey))
    ensures ValidateProvider(Dict(fs), httpUrl) == Ok(p)
  {
    assert ProviderRecordOk(Dict(fs), httpUrl);
    var r := ValidateProvider(Dict(fs), httpUrl);
    assert ProviderFieldsFrom(r.value, fs, httpUrl);
    assert r.value.apiKey == p.apiKey;
  }

  lemma DumpedLeadingFields(p: ProviderSettings)
    ensures var fs := DumpProvider(p).entries;
            && Get(fs, "base_url") == Some(Str(p.baseUrl))
            && Get(fs, "auth_header_prefix") == Some(Str(p.authHeaderPrefix))
            && Get(fs, "models_endpoint") == Some(Str(p.modelsEndpoint))
  {
    var fs := DumpProvider(p).entries;
    GetFirst(fs, 0, "base_url");
    GetFirst(fs, 1, "auth_header_prefix");
    GetFirst(fs, 2, "models_endpoint");
  }

  lemma DumpedTrailingFields(p: ProviderSettings)
    ensures var fs := DumpProvider(p).entries;
            && Get(fs, "models_response_path") == Some(Str(p.modelsResponsePath))
            && Get(fs, "model_id_key") == Some(Str(p.modelIdKey))
            && Get(fs, "api_key") == Some(DumpOptional(p.apiKey))
  {
    DumpedPath(p);
    DumpedIdKey(p);
    DumpedApiKey(p);
  }

  lemma DumpedPath(p: ProviderSettings)
    ensures Get(DumpProvider(p).entries, "models_response_path") == Some(Str(p.modelsResponsePath))
  {
    GetFirst(DumpProvider(p).entries, 3, "models_response_path");
  }

  lemma DumpedIdKey(p: ProviderSettings)
    ensures Get(DumpProvider(p).entries, "model_id_key") == Some(Str(p.modelIdKey))
  {
    GetFirst(DumpProvider(p).entries, 4, "model_id_key");
  }

  lemma DumpedApiKey(p: ProviderSettings)
    ensures Get(DumpProvider(p).entries, "api_key") == Some(DumpOptional(p.apiKey))
  {
    GetFirst(DumpProvider(p).entries, 5, "api_key");
  }

  /** Validating the dump of a settings object gives that object back. */
  lemma AppDumpRoundTrip(s: AppSettings, httpUrl: UrlValidator)
    requires forall i :: 0 <= i < |s.providers| ==> httpUrl(s.providers[i].1.baseUrl) == Some(s.providers[i].1.baseUrl)
    ensures ValidateApp(DumpSettings(s).entries, httpUrl) == Ok(s)
  {
    var d := DumpSettings(s).entries;
    DumpedSections(s);
    LogDumpRoundTrip(s.log);
    ModelDumpRoundTrip(s.model);
    ProvidersDumpRoundTrip(s.providers, httpUrl);
    assert ValidateLog(Get(d, "log")) == Ok(s.log);
    assert ValidateModel(Get(d, "model")) == Ok(s.model);
  }

  lemma DumpedSections(s: AppSettings)
    ensures var d := DumpSettings(s).entries;
            && Get(d, "log") == Some(d[0].1)
            && Get(d, "model") == Some(d[1].1)
            && Get(d, "providers") == Some(Dict(DumpProviders(s.providers)))
  {
    var d := DumpSettings(s).entries;
    GetFirst(d, 0, "log");
    GetFirst(d, 1, "model");
    GetFirst(d, 2, "providers");
  }

  lemma LogDumpRoundTrip(log: LogSettings)
    ensures ValidateLog(Some(Dict([("level", Str(log.level)), ("logfile", DumpOptional(log.logfile))]))) == Ok(log)
  {
    var fs := [("level", Str(log.level)), ("logfile", DumpOptional(log.logfile))];
    GetFirst(fs, 0, "level");
    GetFirst(fs, 1, "logfile");
  }

  lemma ModelDumpRoundTrip(model: LLMSettings)
    ensures ValidateModel(Some(Dict([("provider", DumpOptional(model.provider)), ("name", DumpOptional(model.name))]))) == Ok(model)
  {
    var fs := [("provider", DumpOptional(model.provider)), ("name", DumpOptional(model.name))];
    GetFirst(fs, 0, "provider");
    GetFirst(fs, 1, "name");
  }

  lemma ProvidersDumpRoundTrip(ps: seq<(string, ProviderSettings)>, httpUrl: UrlValidator)
    requires forall i :: 0 <= i < |ps| ==> httpUrl(ps[i].1.baseUrl) == Some(ps[i].1.baseUrl)
    ensures ValidateProviders(DumpProviders(ps), httpUrl) == Ok(ps)
  {
    var dumped := DumpProviders(ps);
    forall i | 0 <= i < |ps| ensures ValidateProvider(dumped[i].1, httpUrl) == Ok(ps[i].1) {
      ProviderDumpRoundTrip(ps[i].1, httpUrl);
    }
    var r := ValidateProviders(dumped, httpUrl);
    assert r.Ok?;
    assert forall i :: 0 <= i < |ps| ==> r.value[i] == ps[i] by {
      forall i | 0 <= i < |ps| ensures r.value[i] == ps[i] {
        assert dumped[i].0 == Keys(dumped)[i] == Keys(ps)[i] == ps[i].0;
      }
    }
    assert |r.value| == |dumped| == |ps|;
    assert r.value == ps;
  }
}
