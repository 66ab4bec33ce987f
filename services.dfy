/**
 * The service factories (src/cli/core/services.py): the logger set-up and
 * the connection parameters the chat agent is built from. The objects of
 * the logging and agent libraries are not modelled; each factory yields
 * the values it would hand to them.
 */
module Services {
  import opened Values
  import opened Strings
  import opened Settings
  import opened LlmProviders

  // ----- create_logger -----

  /** The logger after set-up: the level and, when one is added, the file handler's path. */
  datatype LoggerSetup = LoggerSetup(level: string, fileHandler: Option<string>)

  /**
   * `create_logger`: default handlers removed, the level upper-cased, and a
   * file handler whenever a log file is set. The log file is a path, and a
   * path is always true in Python (the empty path is `.`), so only an unset
   * log file leaves logging off.
   */
  function CreateLogger(log: LogSettings): (r: LoggerSetup)
    ensures |r.level| == |log.level|
    ensures forall i :: 0 <= i < |r.level| ==> !('a' <= r.level[i] <= 'z')
    ensures forall i :: 0 <= i < |r.level| ==> Lower(r.level)[i] == Lower(log.level)[i]
    ensures r.fileHandler == log.logfile
  {
    LoggerSetup(Upper(log.level), log.logfile)
  }

  /** Set-up is stable under its own output: an upper-cased level stays as it is. */
  lemma LoggerLevelIdempotent(log: LogSettings)
    ensures CreateLogger(LogSettings(CreateLogger(log).level, log.logfile)) == CreateLogger(log)
  {
    var once := CreateLogger(log).level;
    assert Upper(once) == once;
  }

  /** Default settings log nothing, at the default level. */
  lemma DefaultLoggerDisabled()
    ensures CreateLogger(DefaultLog) == LoggerSetup("DEBUG", None)
  {
    assert Upper(DefaultLevel) == "DEBUG";
  }

  // ----- create_agent -----

  /** What the OpenAI-compatible model is built from. */
  datatype AgentConfig = AgentConfig(modelName: string, baseUrl: string, apiKey: Option<string>)

  datatype AgentError =
    | ProviderNotConfigured(provider: Option<string>)  // the selected provider has no entry
    | MissingModelOrUrl                                 // model name or base URL empty

  /**
   * `create_agent`: the selected provider must be configured, and model name
   * and base URL must be non-empty; an empty key is passed on as no key.
   */
  function CreateAgent(settings: AppSettings): (r: Result<AgentConfig, AgentError>)
    ensures r == Err(ProviderNotConfigured(settings.model.provider)) <==>
              settings.model.provider.None? || settings.model.provider.value !in Keys(settings.providers)
    ensures r.Ok? <==>
              && GetCurrentProviderSettings(settings).Ok?
              && Filled(settings.model.name)
              && GetCurrentProviderSettings(settings).value.baseUrl != ""
    ensures r.Ok? ==>
              var p := GetCurrentProviderSettings(settings).value;
              && r.value.modelName == settings.model.name.value
              && r.value.baseUrl == p.baseUrl
              && r.value.apiKey == (if Filled(p.apiKey) then p.apiKey else None)
  {
    match settings.model.provider
    case None => Err(ProviderNotConfigured(None))
    case Some(key) =>
      match Get(settings.providers, key)
      case None => Err(ProviderNotConfigured(Some(key)))
      case Some(p) =>
        var apiKey := if Filled(p.apiKey) then p.apiKey else None;
        if !Filled(settings.model.name) || p.baseUrl == "" then Err(MissingModelOrUrl)
        else Ok(AgentConfig(settings.model.name.value, p.baseUrl, apiKey))
  }

  /**
   * The agent authenticates exactly when the model-listing request does:
   * it is given a key if and only if the provider's headers carry one.
   */
  lemma AgentKeyMatchesHeaders(settings: AppSettings, headers: map<string, string>)
    requires CreateAgent(settings).Ok?
    requires HeadersFor(GetCurrentProviderSettings(settings).value, headers)
    ensures CreateAgent(settings).value.apiKey.Some? <==> "Authorization" in headers
    ensures CreateAgent(settings).value.apiKey.Some? ==>
              headers["Authorization"] ==
                GetCurrentProviderSettings(settings).value.authHeaderPrefix + " " + CreateAgent(settings).value.apiKey.value
  {
  }

  /** A validated provider has a non-empty base URL, so with a model chosen the agent is built. */
  lemma ValidatedProviderBuildsAgent(settings: AppSettings, i: nat)
    requires DistinctKeys(settings.providers) && i < |settings.providers|
    requires settings.model.provider == Some(settings.providers[i].0)
    requires settings.providers[i].1.baseUrl != ""
    requires Filled(settings.model.name)
    ensures CreateAgent(settings) == Ok(AgentConfig(settings.model.name.value, settings.providers[i].1.baseUrl,
                                                    if Filled(settings.providers[i].1.apiKey) then settings.providers[i].1.apiKey else None))
  {
    CurrentProviderIsEntry(settings, i);
  }
}
