/**
 * The interactive setup wizard (src/cli/interactive.py): choose a provider,
 * enter its base URL, optionally an API key, pick a model from those the
 * provider lists, and save the choice to the settings and secrets files.
 *
 * The terminal prompts are not modelled; what the user answers to each one
 * is an input (`None` when the prompt was cancelled). The wizard reads the
 * settings loaded at start-up, which are a parameter here.
 */
module Interactive {
  import opened Values
  import opened Strings
  import opened Settings
  import opened LlmProviders

  const Custom := "custom"

  // ----- provider -----

  /** The list comprehension `[p for p in keys if p != "custom"]`. */
  function WithoutCustom(keys: seq<string>): (r: seq<string>)
    ensures |r| <= |keys|
  {
    if keys == [] then []
    else
      var last := keys[|keys| - 1];
      WithoutCustom(keys[..|keys| - 1]) + (if last != Custom then [last] else [])
  }

  /** The comprehension keeps exactly the keys other than `custom`. */
  lemma {:induction false} WithoutCustomMembers(keys: seq<string>)
    ensures forall k :: k in WithoutCustom(keys) <==> k in keys && k != Custom
  {
    if keys != [] {
      var init := keys[..|keys| - 1];
      WithoutCustomMembers(init);
      assert keys == init + [keys[|keys| - 1]];
    }
  }

  /** `["custom"]` extended by every configured provider key other than `custom`, in order. */
  method ProviderChoices(providers: seq<(string, ProviderSettings)>) returns (choices: seq<string>)
    ensures choices == [Custom] + WithoutCustom(Keys(providers))
  {
    choices := [Custom];
    var i := 0;
    while i < |providers|
      invariant 0 <= i <= |providers|
      invariant choices == [Custom] + WithoutCustom(Keys(providers)[..i])
    {
      var key := providers[i].0;
      assert Keys(providers)[..i + 1][..i] == Keys(providers)[..i];
      if key != Custom {
        choices := choices + [key];
      }
      i := i + 1;
    }
    assert Keys(providers)[..|providers|] == Keys(providers);
  }

  /** `custom` is offered first and once, followed by every configured key. */
  lemma ChoicesOfferEveryProvider(providers: seq<(string, ProviderSettings)>)
    ensures var choices := [Custom] + WithoutCustom(Keys(providers));
            choices[0] == Custom && Custom !in choices[1..]
            && (forall k :: k in choices <==> k == Custom || k in Keys(providers))
  {
    WithoutCustomMembers(Keys(providers));
    assert ([Custom] + WithoutCustom(Keys(providers)))[1..] == WithoutCustom(Keys(providers));
  }

  // ----- base URL -----

  /** Why the wizard stopped before saving. */
  datatype Step = ProviderStep | BaseUrlStep | ModelStep

  /** The pre-filled answer of the URL prompt; a key that is neither `custom` nor configured raises `KeyError`. */
  function DefaultBaseUrl(providers: seq<(string, ProviderSettings)>, key: string): (r: Result<string, string>)
    ensures key == Custom ==> r == Ok("")
    ensures key != Custom ==> (r.Ok? <==> key in Keys(providers))
    ensures key != Custom && r.Ok? ==> r.value == Get(providers, key).value.baseUrl
    ensures r.Err? ==> r.error == key
  {
    if key == Custom then Ok("")
    else
      match Get(providers, key)
      case Some(p) => Ok(p.baseUrl)
      case None => Err(key)
  }

  /** How the URL prompt ended. */
  datatype UrlPrompt =
    | UrlCancelled
    | UrlAccepted(url: string)
    | StillPrompting   // every answer so far was a non-empty invalid URL

  /** The answers before an index were all non-empty and rejected by the URL type. */
  predicate RejectedBefore(answers: seq<Option<string>>, n: nat, httpUrl: UrlValidator)
    requires n <= |answers|
  {
    forall j :: 0 <= j < n ==> Filled(answers[j]) && httpUrl(answers[j].value).None?
  }

  /** The URL prompt after the given answers: the first empty answer cancels, the first valid one is taken. */
  function UrlPromptAfter(answers: seq<Option<string>>, httpUrl: UrlValidator): (r: UrlPrompt)
    ensures r == StillPrompting <==> RejectedBefore(answers, |answers|, httpUrl)
    ensures r == UrlCancelled <==> exists i :: 0 <= i < |answers| && !Filled(answers[i]) && RejectedBefore(answers, i, httpUrl)
    ensures r.UrlAccepted? <==> exists i :: 0 <= i < |answers| && Filled(answers[i])
                                     && httpUrl(answers[i].value).Some? && RejectedBefore(answers, i, httpUrl)
    ensures r.UrlAccepted? ==> exists i :: 0 <= i < |answers| && Filled(answers[i]) && httpUrl(answers[i].value) == Some(r.url)
                                     && RejectedBefore(answers, i, httpUrl)
  {
    if answers == [] then StillPrompting
    else if !Filled(answers[0]) then UrlCancelled
    else match httpUrl(answers[0].value)
      case Some(u) => UrlAccepted(u)
      case None =>
        var r := UrlPromptAfter(answers[1..], httpUrl);
        ShiftRejected(answers, httpUrl);
        r
  }

  /** The prompt accepts exactly the URL of the first valid answer after only rejected ones. */
  lemma AcceptsFirstValidAnswer(answers: seq<Option<string>>, i: nat, httpUrl: UrlValidator)
    requires i < |answers| && Filled(answers[i]) && httpUrl(answers[i].value).Some?
    requires RejectedBefore(answers, i, httpUrl)
    ensures UrlPromptAfter(answers, httpUrl) == UrlAccepted(httpUrl(answers[i].value).value)
  {
    var r := UrlPromptAfter(answers, httpUrl);
    var j :| 0 <= j < |answers| && Filled(answers[j]) && httpUrl(answers[j].value) == Some(r.url)
             && RejectedBefore(answers, j, httpUrl);
    // Each index is the first accepted answer, so neither comes before the other.
    if j < i || i < j {
      assert false;
    }
  }

  lemma ShiftRejected(answers: seq<Option<string>>, httpUrl: UrlValidator)
    requires answers != [] && Filled(answers[0]) && httpUrl(answers[0].value).None?
    ensures forall n :: 0 <= n < |answers| ==> (RejectedBefore(answers[1..], n, httpUrl) <==> RejectedBefore(answers, n + 1, httpUrl))
  {
    forall n | 0 <= n < |answers| ensures RejectedBefore(answers[1..], n, httpUrl) <==> RejectedBefore(answers, n + 1, httpUrl) {
      assert forall j :: 0 <= j < n ==> answers[1..][j] == answers[j + 1];
      if RejectedBefore(answers[1..], n, httpUrl) {
        forall j | 0 <= j < n + 1 ensures Filled(answers[j]) && httpUrl(answers[j].value).None? {
          if j > 0 { assert answers[1..][j - 1] == answers[j]; }
        }
      }
    }
  }

  /** The `while True` loop of `_configure_base_url`, fed the user's answers in order. */
  method ConfigureBaseUrl(answers: seq<Option<string>>, httpUrl: UrlValidator) returns (r: UrlPrompt)
    ensures r == UrlPromptAfter(answers, httpUrl)
  {
    var i := 0;
    while i < |answers|
      invariant 0 <= i <= |answers|
      invariant UrlPromptAfter(answers[i..], httpUrl) == UrlPromptAfter(answers, httpUrl)
    {
      var answer := answers[i];
      if !Filled(answer) {
        return UrlCancelled;
      }
      var parsed := httpUrl(answer.value);
      if parsed.Some? {
        return UrlAccepted(parsed.value);
      }
      assert answers[i..][1..] == answers[i + 1..];
      i := i + 1;
    }
    return StillPrompting;
  }

  // ----- temporary provider config -----

  /**
   * `_build_temp_provider_config`: the given URL and key, and every other
   * field carried over from the configured provider, or defaulted for
   * `custom` and for a key that is not configured.
   */
  method BuildTempProviderConfig(providers: seq<(string, ProviderSettings)>, key: string, baseUrl: string, apiKey: Option<string>)
    returns (config: ProviderSettings)
    ensures config.baseUrl == baseUrl && config.apiKey == apiKey
    ensures config == TempConfig(providers, key, baseUrl, apiKey)
  {
    var baseConfig: seq<(string, Value)> := [];
    if key != Custom {
      var found := Get(providers, key);
      if found.Some? {
        baseConfig := DumpProvider(found.value).entries;
        DumpedLeadingFields(found.value);
        DumpedTrailingFields(found.value);
      }
    }
    ghost var dumped := baseConfig;
    baseConfig := Pop(baseConfig, "base_url");
    baseConfig := Pop(baseConfig, "api_key");
    CarriedField(dumped, "auth_header_prefix");
    CarriedField(dumped, "models_endpoint");
    CarriedField(dumped, "models_response_path");
    CarriedField(dumped, "model_id_key");
    config := ProviderSettings(
      baseUrl,
      StrOr(baseConfig, "auth_header_prefix", DefaultAuthHeaderPrefix),
      StrOr(baseConfig, "models_endpoint", DefaultModelsEndpoint),
      StrOr(baseConfig, "models_response_path", DefaultModelsResponsePath),
      StrOr(baseConfig, "model_id_key", DefaultModelIdKey),
      apiKey);
  }

  /** Popping `base_url` and `api_key` leaves every other field where it was. */
  lemma CarriedField(d: seq<(string, Value)>, k: string)
    requires k != "base_url" && k != "api_key"
    ensures Get(Pop(Pop(d, "base_url"), "api_key"), k) == Get(d, k)
  {
    PopGet(d, "base_url", k);
    PopGet(Pop(d, "base_url"), "api_key", k);
  }

  // ----- model -----

  /** The answer that counts: typed in when nothing was fetched, picked from the list otherwise; a falsy one cancels. */
  function ModelAnswer(models: seq<string>, typed: Option<string>, picked: Option<string>): (r: Option<string>)
    ensures r.Some? ==> r.value != ""
    ensures models == [] ==> r == (if Filled(typed) then typed else None)
    ensures models != [] ==> r == (if Filled(picked) then picked else None)
  {
    var answer := if models == [] then typed else picked;
    if Filled(answer) then answer else None
  }

  /** `_select_model`: fetch the list with the temporary config, then prompt. */
  method SelectModel(config: ProviderSettings, outcome: HttpOutcome, typed: Option<string>, picked: Option<string>)
    returns (modelName: Option<string>, offered: seq<string>)
    ensures offered == FetchedModels(config, outcome)
    ensures modelName == ModelAnswer(offered, typed, picked)
  {
    var provider := new GenericLlmProvider(config);
    var request, models, failure := provider.FetchModels(outcome);
    offered := models;
    var answer := if models == [] then typed else picked;
    if !Filled(answer) {
      return None, offered;
    }
    modelName := answer;
  }

  // ----- saving -----

  /** `user_settings`: the model choice and the base URL override of the chosen provider. */
  function SettingsPayload(provider: string, baseUrl: string, modelName: string): (r: Value)
    ensures r.Dict? && Keys(r.entries) == ["model", "providers"]
    ensures Get(r.entries, "providers").Some? && Get(r.entries, "providers").value.Dict?
    ensures Keys(Get(r.entries, "providers").value.entries) == [provider]
    ensures Get(Get(r.entries, "providers").value.entries, provider).Some?
    ensures Get(Get(r.entries, "providers").value.entries, provider).value.Dict?
    ensures Keys(Get(Get(r.entries, "providers").value.entries, provider).value.entries) == ["base_url"]
  {
    Dict([("model", Dict([("provider", Str(provider)), ("name", Str(modelName))])),
          ("providers", Dict([(provider, Dict([("base_url", Str(baseUrl))]))]))])
  }

  /** `user_secrets`: the chosen provider's key, an empty string when none was given. */
  function SecretsPayload(provider: string, apiKey: Option<string>): (r: Value)
    ensures r.Dict? && Keys(r.entries) == ["providers"]
    ensures Get(r.entries, "providers").Some? && Get(r.entries, "providers").value.Dict?
    ensures Keys(Get(r.entries, "providers").value.entries) == [provider]
    ensures Get(Get(r.entries, "providers").value.entries, provider).Some?
    ensures Get(Get(r.entries, "providers").value.entries, provider).value.Dict?
    ensures Get(Get(Get(r.entries, "providers").value.entries, provider).value.entries, "api_key")
            == Some(Str(if Filled(apiKey) then apiKey.value else ""))
  {
    Dict([("providers", Dict([(provider, Dict([("api_key", Str(if Filled(apiKey) then apiKey.value else ""))]))]))])
  }

  /** Reading the saved settings file back selects the chosen provider and model, the provider with default fields. */
  lemma SavedSettingsReload(provider: string, baseUrl: string, modelName: string, httpUrl: UrlValidator)
    requires httpUrl(baseUrl).Some?
    ensures ValidateApp(SettingsPayload(provider, baseUrl, modelName).entries, httpUrl)
            == Ok(AppSettings(DefaultLog, LLMSettings(Some(provider), Some(modelName)),
                              [(provider, ProviderWithDefaults(httpUrl(baseUrl).value))]))
  {
    var d := SettingsPayload(provider, baseUrl, modelName).entries;
    SavedSections(provider, baseUrl, modelName);
    SavedModel(provider, modelName);
    ProviderOmittedFieldsDefault(baseUrl, httpUrl);
    SingleProvider(provider, Dict([("base_url", Str(baseUrl))]), httpUrl);
  }

  lemma SavedSections(provider: string, baseUrl: string, modelName: string)
    ensures var d := SettingsPayload(provider, baseUrl, modelName).entries;
            && Get(d, "log") == None
            && Get(d, "model") == Some(d[0].1)
            && Get(d, "providers") == Some(Dict([(provider, Dict([("base_url", Str(baseUrl))]))]))
  {
    var d := SettingsPayload(provider, baseUrl, modelName).entries;
    GetFirst(d, 0, "model");
    GetFirst(d, 1, "providers");
  }

  lemma SavedModel(provider: string, modelName: string)
    ensures ValidateModel(Some(Dict([("provider", Str(provider)), ("name", Str(modelName))])))
            == Ok(LLMSettings(Some(provider), Some(modelName)))
  {
    var model := [("provider", Str(provider)), ("name", Str(modelName))];
    GetFirst(model, 0, "provider");
    GetFirst(model, 1, "name");
  }

  /** A one-entry providers section validates to its one record. */
  lemma SingleProvider(name: string, entry: Value, httpUrl: UrlValidator)
    requires ValidateProvider(entry, httpUrl).Ok?
    ensures ValidateProviders([(name, entry)], httpUrl) == Ok([(name, ValidateProvider(entry, httpUrl).value)])
  {
    var r := ValidateProviders([(name, entry)], httpUrl);
    assert r.Ok?;
    assert |r.value| == 1;
    assert r.value[0] == (name, ValidateProvider(entry, httpUrl).value);
    assert r.value == [(name, ValidateProvider(entry, httpUrl).value)];
  }

  /** The record a payload holds for a provider, when it has one. */
  function EntryOf(doc: Value, provider: string): Option<seq<(string, Value)>> {
    if !doc.Dict? then None
    else
      var section: Option<Value> := Get(doc.entries, "providers");
      if section.None? || !section.value.Dict? then None
      else
        var entry: Option<Value> := Get(section.value.entries, provider);
        if entry.None? || !entry.value.Dict? then None
        else Some(entry.value.entries)
  }

  /** The key goes to the secrets file only: the settings payload never holds it, the secrets payload holds nothing else. */
  lemma KeyOnlyInSecrets(provider: string, baseUrl: string, modelName: string, apiKey: Option<string>)
    ensures EntryOf(SettingsPayload(provider, baseUrl, modelName), provider).Some?
    ensures Keys(EntryOf(SettingsPayload(provider, baseUrl, modelName), provider).value) == ["base_url"]
    ensures EntryOf(SecretsPayload(provider, apiKey), provider).Some?
    ensures Keys(EntryOf(SecretsPayload(provider, apiKey), provider).value) == ["api_key"]
    ensures Get(EntryOf(SecretsPayload(provider, apiKey), provider).value, "api_key")
            == Some(Str(if apiKey.Some? then apiKey.value else ""))
  {
    var d := SettingsPayload(provider, baseUrl, modelName).entries;
    GetFirst(d, 1, "providers");
  }

  // ----- run_setup -----

  /** Everything the user answers, in prompt order. */
  datatype Answers = Answers(
    provider: Option<string>,
    urls: seq<Option<string>>,
    apiKey: Option<string>,
    typedModel: Option<string>,
    pickedModel: Option<string>)

  datatype SetupOutcome =
    | Cancelled(at: Step)
    | KeyError(key: string)          // the provider key is neither `custom` nor configured
    | AwaitingUrl                    // the answers ran out at the URL prompt
    | Saved(settings: Value, secrets: Value)

  /**
   * `run_setup`: each step that yields nothing ends the wizard before
   * anything is written; only when provider, URL and model are all chosen
   * are the two payloads saved.
   */
  method RunSetup(settings: AppSettings, answers: Answers, outcome: HttpOutcome, httpUrl: UrlValidator)
    returns (r: SetupOutcome)
    ensures !Filled(answers.provider) <==> r == Cancelled(ProviderStep)
    ensures Filled(answers.provider) ==>
              var key := answers.provider.value;
              (r.KeyError? <==> DefaultBaseUrl(settings.providers, key).Err?)
    ensures r.Saved? <==>
              && Filled(answers.provider)
              && DefaultBaseUrl(settings.providers, answers.provider.value).Ok?
              && UrlPromptAfter(answers.urls, httpUrl).UrlAccepted?
              && ChosenModel(settings, answers, outcome, httpUrl).Some?
    ensures r.Saved? ==>
              var key := answers.provider.value;
              var url := UrlPromptAfter(answers.urls, httpUrl).url;
              var model := ChosenModel(settings, answers, outcome, httpUrl).value;
              r == Saved(SettingsPayload(key, url, model), SecretsPayload(key, answers.apiKey))
  {
    if !Filled(answers.provider) {
      return Cancelled(ProviderStep);
    }
    var key := answers.provider.value;
    var default := DefaultBaseUrl(settings.providers, key);
    if default.Err? {
      return KeyError(key);
    }
    var prompt := ConfigureBaseUrl(answers.urls, httpUrl);
    if prompt == UrlCancelled {
      return Cancelled(BaseUrlStep);
    } else if prompt == StillPrompting {
      return AwaitingUrl;
    }
    var config := BuildTempProviderConfig(settings.providers, key, prompt.url, answers.apiKey);
    var modelName, offered := SelectModel(config, outcome, answers.typedModel, answers.pickedModel);
    if modelName.None? {
      return Cancelled(ModelStep);
    }
    r := Saved(SettingsPayload(key, prompt.url, modelName.value), SecretsPayload(key, answers.apiKey));
  }

  /** The provider record the wizard fetches models with. */
  function TempConfig(providers: seq<(string, ProviderSettings)>, key: string, baseUrl: string, apiKey: Option<string>): ProviderSettings {
    if key != Custom && Get(providers, key).Some? then Get(providers, key).value.(baseUrl := baseUrl, apiKey := apiKey)
    else ProviderWithDefaults(baseUrl).(apiKey := apiKey)
  }

  /** The model the user ends up with once provider and URL are chosen. */
  function ChosenModel(settings: AppSettings, answers: Answers, outcome: HttpOutcome, httpUrl: UrlValidator): Option<string>
    requires Filled(answers.provider)
  {
    match UrlPromptAfter(answers.urls, httpUrl)
    case UrlAccepted(url) =>
      var config := TempConfig(settings.providers, answers.provider.value, url, answers.apiKey);
      ModelAnswer(FetchedModels(config, outcome), answers.typedModel, answers.pickedModel)
    case _ => None
  }
}
