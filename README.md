# MikuCast CLI core in Dafny

This project models the configuration and model-discovery logic of the MikuCast command-line chat client and proves properties about it. That client keeps one profile per LLM provider: a base URL, an auth header prefix, the models endpoint, the JMESPath of the model list and of each model's id, and an optional API key.

The model covers these pieces:

- **`LlmProviders`** (`src/cli/llm_providers.py`):
  - the generic provider class: the `Authorization` header, the request URL and `fetch_models`
  - `fetch_models` turns an HTTP outcome into a sorted list of model ids, and every failure into `[]`
- **`Config`** (`src/cli/config.py`):
  - `is_valid_url`, over a model of `urllib.parse.urlparse`'s scheme and netloc split
  - `validate_url_input`
  - the default-section-only shaping of `save_config`
- **`Settings`** (`src/cli/core/settings.py`):
  - the pydantic schema with its defaults, as a validator over decoded data
  - lower-casing of top-level keys in `load_settings`
  - `get_current_provider_settings`
  - `model_dump`, with round-trip lemmas
- **`Cli`** (`src/cli/cli.py`):
  - the start-up gate of the main callback
  - the in-place `api_key` masking loop of `config list`
- **`Interactive`** (`src/cli/interactive.py`): the setup wizard.
  - provider choices
  - the default base URL
  - the URL re-prompt loop
  - the temporary provider config
  - model selection
  - the two saved payloads
  - the early returns of `run_setup`
- **`Services`** (`src/cli/core/services.py`):
  - the checks and normalisation in `create_agent`
  - the level and handler choice of `create_logger`

Supporting modules:

- **`Values`**: decoded JSON/TOML data as a `Value` datatype. Python dictionaries are ordered association lists with `Get`, `Set` and `Pop`, so insertion order and "later key wins" can be stated.
- **`Strings`**:
  - ASCII case mapping
  - `rstrip`
  - Python's string order
  - a sort
- **`JmesPath`**: JMESPath restricted to dotted identifier paths. The schema's default paths, `data` and `id` (src/cli/core/settings.py:35-36), are such paths (`DefaultKeysAreIdentifiers`).

External effects become inputs to the model:

- **HTTP**: the response is an `HttpOutcome` (connection failure, or a status plus an optional decoded JSON body).
- **pydantic `HttpUrl`**: a `UrlValidator` function parameter that gives the string form of an accepted URL, or `None`.
- **Terminal prompts**: the user's answers are inputs, with `None` for a cancelled prompt.
- **Settings**: the loaded settings are an explicit parameter instead of the module-level singleton.

## Behaviour worth noting

- The extracted model ids are not de-duplicated: two items with the same id give it twice (`DuplicatesAreKept`).
- Any truthy id is kept, whatever its type, and is passed through `str()` (`PyStr`).
- The wizard's saved payloads replace the files' contents. The secrets payload holds only the chosen provider's key, `""` when none was given.
- The wizard's payloads have `model` and `providers` at top level. Only `ConfigManager.save_config` wraps its data in a `default` section.
- Every failure of `fetch_models` gives `[]`. `FetchModels` also returns the category of the failure it met, which callers do not see.
- The key of the user-defined provider is `custom`.
- A failed start-up validation exits with code 1.

## Model

| member | source | states |
|---|---|---|
| LlmProviders.GenericLlmProvider.constructor | src/cli/llm_providers.py:38-40 | the provider keeps the configuration it was built with |
| LlmProviders.GenericLlmProvider.GetApiHeaders | src/cli/llm_providers.py:42-49 | the only possible header is `Authorization`; it is present iff the API key is set and non-empty, and then it is `prefix + " " + key` |
| LlmProviders.NoKeyNoHeaders | src/cli/llm_providers.py:44-49 | without a key (None or empty) the header map is empty |
| LlmProviders.RequestUrl | src/cli/llm_providers.py:57 | the URL is a prefix of the base URL with every trailing `/` removed, followed by the endpoint verbatim |
| Strings.RStrip | src/cli/llm_providers.py:57 | `rstrip(c)` is a prefix of the input, not ending in `c`, and only `c`s were removed |
| LlmProviders.GenericLlmProvider.FetchModels | src/cli/llm_providers.py:51-127 | an empty base URL issues no request and gives `[]`; otherwise the request uses `RequestUrl` and the header rule; models are the extracted ids on success and `[]` with the failure category on every error path |
| LlmProviders.ResponseModels | src/cli/llm_providers.py:63-127 | a connection failure, a status outside 2xx and a body that is not JSON each yield their own failure; a 2xx JSON body yields the extraction's result |
| LlmProviders.FetchedModels | src/cli/llm_providers.py:51-127 | the list seen by callers is sorted, empty without a base URL, and a non-empty list is exactly a successful extraction |
| LlmProviders.ModelsList | src/cli/llm_providers.py:70-79 | a bad path is a path error; a value at the path that is not a list fails as "not a list"; a list gives its items |
| LlmProviders.NonListGivesNothing | src/cli/llm_providers.py:72-79 | whenever the value at the path is not a list, extraction fails with that value, so no ids come back |
| LlmProviders.DictItems | src/cli/llm_providers.py:82-86 | keeps exactly the elements that are objects, each as often as it occurs in the input, and never more elements than the input |
| LlmProviders.LookupIds | src/cli/llm_providers.py:82-86 | one id lookup per object, in order, each the JMESPath search of the id key; fails only for a bad id path with at least one object |
| Values.Truthy | src/cli/llm_providers.py:89 | a value is falsy iff it is `None`, `False`, `0`, `""`, `[]` or `{}` |
| Values.PyStr | src/cli/llm_providers.py:89 | `str` of a string is the string itself, and `str` of a truthy value is never empty |
| Values.PyRepr | src/cli/llm_providers.py:89 | `repr`, which `str` uses for every non-string id, is never empty |
| LlmProviders.KeptIds | src/cli/llm_providers.py:89 | one string per truthy id: each string occurs as often as there are truthy ids with that string form, so duplicates are kept; every kept string is `str` of a truthy id and every truthy id's string is kept |
| LlmProviders.ModelIds | src/cli/llm_providers.py:82-89 | the strings of the truthy ids of the object items; fails only when an object exists and the id path is malformed |
| LlmProviders.ExtractModelIds | src/cli/llm_providers.py:70-89 | succeeds iff the list path and id lookups succeed; the result is sorted and a permutation of the kept ids; failures are only path errors or "not a list" |
| LlmProviders.ModelIdsFromObjects | src/cli/llm_providers.py:82-89 | each returned id comes from some object item's truthy id |
| LlmProviders.ExtractedIdsComeFromObjects | src/cli/llm_providers.py:82-89 | at most one id per object item, and every id is `str` of an object item's truthy id |
| LlmProviders.ExtractedIdCounts | src/cli/llm_providers.py:82-89 | each model id occurs in the result exactly as often as there are object items whose truthy id has that string form |
| LlmProviders.EveryTruthyIdIsReturned | src/cli/llm_providers.py:82-89 | every object item with a truthy id contributes its string to the result |
| LlmProviders.DuplicatesAreKept | src/cli/llm_providers.py:89 | two items with the same id give that id twice |
| LlmProviders.OpenAiStyleBody | src/cli/llm_providers.py:70-89 | an OpenAI-style `{"data": [...]}` body with the default paths gives the ids of the object items with truthy ids, sorted; non-objects and null ids are dropped |
| LlmProviders.DefaultKeysAreIdentifiers | src/cli/core/settings.py:35-36 | the default paths `data` and `id` are valid JMESPath identifiers |
| Strings.SortStrings | src/cli/llm_providers.py:89 | `sorted` gives an ordered permutation of its input |
| Strings.InsertSorted | src/cli/llm_providers.py:89 | inserting into an ordered list keeps it ordered and adds exactly that element |
| Strings.LexLeTotal | src/cli/llm_providers.py:89 | Python's string order is total |
| Strings.LexLeTransitive | src/cli/llm_providers.py:89 | Python's string order is transitive |
| Strings.LexLeAntisymmetric | src/cli/llm_providers.py:89 | Python's string order is antisymmetric |
| JmesPath.Compile | src/cli/llm_providers.py:70 | an expression compiles iff every dot-separated piece is an identifier, and the compiled path joins back to the expression |
| JmesPath.CheckSegments | src/cli/llm_providers.py:70 | the segments pass iff every one is an identifier |
| JmesPath.SplitDots | src/cli/llm_providers.py:70 | an expression always has at least one segment |
| JmesPath.JoinSplit | src/cli/llm_providers.py:70 | joining the split pieces with dots gives back the expression |
| JmesPath.SplitJoin | src/cli/llm_providers.py:70 | splitting dot-free pieces joined with dots gives back the pieces |
| JmesPath.Search | src/cli/llm_providers.py:69 | a search fails iff the expression does not compile, with the compile error; on a value that is not an object it gives null |
| JmesPath.Walk | src/cli/llm_providers.py:70 | an empty path gives the value itself; a step into a non-object or a missing key gives null; otherwise the rest of the path is walked from the key's value |
| JmesPath.SearchKey | src/cli/llm_providers.py:83 | searching an identifier gives the key's value, or null when the key is missing or the value is not an object |
| JmesPath.SearchChain | src/cli/llm_providers.py:70 | `a.rest` is `rest` evaluated on the value at `a` |
| JmesPath.IdentifierHasNoDot | src/cli/llm_providers.py:70 | an identifier contains no dot |
| Config.IsValidUrl | src/cli/config.py:23-32 | a non-string is invalid; text urlparse rejects is invalid; otherwise valid iff the parsed scheme is `http`/`https` and the netloc is non-empty |
| Config.ValidateUrlInput | src/cli/config.py:92-97 | exactly the `is_valid_url` verdict for every input |
| Config.ValidUrlShape | src/cli/config.py:28-30 | a valid URL is, after urlparse's cleaning, an `http`/`https` scheme in any case, then `//`, then a non-empty authority |
| Config.AcceptsHttpUrl | src/cli/config.py:28-30 | conversely every `http(s)://host[rest]` with a non-empty plain host is valid |
| Config.RejectsMissingAuthority | src/cli/config.py:28-30 | a scheme followed by anything but `//` is invalid |
| Config.RejectsOtherScheme | src/cli/config.py:28-30 | any other letter scheme is invalid |
| Config.RejectsUnclosedBracket | src/cli/config.py:27-32 | an unclosed `[` in the authority makes urlparse fail, and the URL is invalid rather than raising |
| Config.HttpsIsHttpScheme | src/cli/config.py:30 | `https` and `HTTP` count as http schemes, `ftp` does not |
| Config.OpenAiUrlAccepted | src/cli/config.py:28-30 | `https://api.openai.com/v1` is valid |
| Config.UpperCaseSchemeAccepted | src/cli/config.py:28-30 | `HTTP://localhost:11434` is valid, since the scheme is lower-cased |
| Config.OpaqueFormRejected | src/cli/config.py:28-30 | `http:example.com` is invalid |
| Config.FtpRejected | src/cli/config.py:28-30 | `ftp://example.com` is invalid |
| Config.UnclosedIPv6Rejected | src/cli/config.py:31-32 | `http://[::1` is invalid |
| Config.LStripC0 | src/cli/config.py:28 | the stripped text is a suffix of the input starting at a non-control character, and everything dropped is a C0 control or space |
| Config.UrlParse | src/cli/config.py:28 | cleaning (`LStripC0`, `RemoveUnsafe`), then the scheme split (`SplitScheme`: a letter-led run of scheme characters before the first `:`, lower-cased), then `SplitNetloc`; a parsed scheme has no upper-case letter, and parsing fails only when the text has a `[` or `]` |
| Config.RemoveUnsafe | src/cli/config.py:28 | urlsplit's removal of tabs and line breaks: no such character is left, nothing is added, and text without them is unchanged |
| Config.SplitNetloc | src/cli/config.py:28 | without a leading `//` the netloc is empty and the text is kept; with one, the text is `//` + netloc + rest, the netloc has no `/`, `?` or `#`, and the rest starts at one of them or is empty |
| Config.CheckBrackets | src/cli/config.py:28-32 | a netloc without brackets passes; one with a `[` but no `]`, or the reverse, raises the invalid-IPv6 error |
| Config.ParsedAfterScheme | src/cli/config.py:28 | once cleaning leaves the text alone and the scheme is split off, urlparse's result is the netloc split of what follows the `:` |
| Config.IndexOf | src/cli/config.py:28 | `find` gives the first occurrence or the length |
| Config.LastIndexOf | src/cli/config.py:28 | `rfind` gives the last occurrence or the length |
| Config.NetlocEnd | src/cli/config.py:28 | the authority ends at the first `/`, `?` or `#` |
| Config.SaveConfig | src/cli/config.py:99-113 | each file gets exactly one top-level key, `default`, holding its own input's `default` entry, or `{}` when that is missing |
| Config.SaveConfigSeparatesFiles | src/cli/config.py:107-113 | the settings file depends only on the config data and the secrets file only on the secrets data |
| Config.SaveConfigIgnoresOtherSections | src/cli/config.py:107-108 | adding or changing any top-level key other than `default` changes neither file |
| Settings.ValidateProvider | src/cli/core/settings.py:31-37 | a record validates iff it is an object with an accepted `base_url` and well-typed optional fields; each field is the given value or its default |
| Settings.ValidateOptionalFields | src/cli/core/settings.py:33-37 | the optional fields validate iff each is absent or a string (`api_key` may be null); absent fields take `Bearer`, `/models`, `data`, `id` and None |
| Settings.ValidateProviders | src/cli/core/settings.py:43 | the section validates iff every record does, keeping names and order |
| Settings.ValidateProvidersSection | src/cli/core/settings.py:43 | an absent `providers` section is `{}`; a given one validates iff it is an object whose every record validates, keeping the names |
| Settings.ProviderOmittedFieldsDefault | src/cli/core/settings.py:31-37 | a record with only `base_url` gets every default |
| Settings.EmptyDataGivesDefaults | src/cli/core/settings.py:21-43 | empty data loads to level `DEBUG`, no log file, no provider or model, no providers |
| Settings.LoadSettings | src/cli/core/settings.py:70-79 | loading succeeds iff the lower-cased data validates, with exactly the validated settings; a failure exits with 1 |
| Settings.ValidateLog | src/cli/core/settings.py:21-23 | an absent section is the default; a given one validates iff it is an object whose `level` is absent or a string and whose `logfile` is absent, null or a string, and then holds those values or their defaults |
| Settings.ValidateModel | src/cli/core/settings.py:26-28 | an absent section is the default; a given one validates iff it is an object whose `provider` and `name` are absent, null or strings, and then holds them |
| Settings.ValidateApp | src/cli/core/settings.py:40-43 | valid iff each of the three sections is; each field is its section's result, and an absent `log`, `model` or `providers` gives the default log, the default model and no providers |
| Settings.ValidateAppIgnoresOtherKeys | src/cli/core/settings.py:40-43 | setting a top-level key other than the three sections leaves the validation result unchanged |
| Settings.LoadWithoutLogSection | src/cli/core/settings.py:72-75 | when no input key lower-cases to `log`, the loaded log section is the default |
| Settings.LoadUsesLastModelSpelling | src/cli/core/settings.py:72-75 | of several keys spelling `model` in different cases, the last one's value is the section validated |
| Strings.Lower | src/cli/core/settings.py:72 | `lower()` keeps the length, leaves no `A`-`Z`, changes no other character, and keeps every character equal ignoring case |
| Strings.LowerIdempotent | src/cli/core/settings.py:72 | lower-casing a lower-cased string changes nothing |
| Settings.LowerTopLevelKeys | src/cli/core/settings.py:72 | the comprehension never lengthens the data, and every resulting key is already lower-case |
| Settings.LowerKeysAreLoweredInputKeys | src/cli/core/settings.py:72 | the result's keys are distinct and are exactly the lower-cased input keys |
| Settings.LowerKeysLastWins | src/cli/core/settings.py:72 | of keys equal up to case, the last one's value is kept |
| Settings.LowerKeysKeepValues | src/cli/core/settings.py:72 | every value in the result is an input value under a key that lower-cases to its key, unchanged |
| Settings.GetCurrentProviderSettings | src/cli/core/settings.py:87-100 | succeeds iff a provider is selected and configured, returning exactly its entry; otherwise exits with 1 |
| Settings.CurrentProviderIsEntry | src/cli/core/settings.py:87-100 | with distinct keys, the selected provider's entry is returned |
| Settings.DumpProvider | src/cli/cli.py:66 | a dumped record is a dictionary of the six schema fields, distinct and in declaration order |
| Settings.DumpSettings | src/cli/cli.py:189 | the dump is a dictionary of `log`, `model` and `providers`, in that order, the last holding the dumped providers |
| Settings.ProviderDumpRoundTrip | src/cli/cli.py:66 | validating a dumped provider gives it back, provided the URL type leaves accepted URLs as they are |
| Settings.LogDumpRoundTrip | src/cli/cli.py:66 | validating a dumped log section gives it back |
| Settings.ModelDumpRoundTrip | src/cli/cli.py:66 | validating a dumped model section gives it back |
| Settings.ProvidersDumpRoundTrip | src/cli/cli.py:66 | validating a dumped providers section (`DumpProviders`, which keeps names and order) gives it back |
| Settings.AppDumpRoundTrip | src/cli/cli.py:66 | `AppSettings.model_validate(settings.model_dump())` gives the settings back, under the same URL proviso |
| Cli.MainCallback | src/cli/cli.py:40-71 | no subcommand never exits, and shows the panel or the notice; `config` always proceeds; any other subcommand proceeds iff the settings re-validate, and otherwise exits with 1 |
| Cli.LoadedSettingsPassGate | src/cli/cli.py:63-71 | loaded settings always pass the gate when the URL type keeps the URLs it accepted unchanged |
| Cli.RedactApiKeys | src/cli/cli.py:190-199 | a document without providers is unchanged; otherwise every other top-level entry is kept and each provider record is redacted in place, names and order kept |
| Cli.RedactEntry | src/cli/cli.py:194-199 | a record stays a dictionary iff it was one; one with a truthy `api_key` shows the mask, any other is unchanged |
| Cli.RedactEntryFields | src/cli/cli.py:193-199 | redaction keeps the record's field names and every other field; a set key becomes `********`, and without one the record is unchanged |
| Cli.RedactEntryIdempotent | src/cli/cli.py:199 | redacting twice equals redacting once |
| Cli.RedactDumpedProvider | src/cli/cli.py:190-199 | a loaded provider with a non-empty key shows the mask; one with no key or an empty key is shown as it is |
| Cli.DumpedProvidersSection | src/cli/cli.py:190-192 | the dumped settings always have the providers section the loop walks over |
| Interactive.WithoutCustom | src/cli/interactive.py:71 | the comprehension never lengthens the key list |
| Interactive.WithoutCustomMembers | src/cli/interactive.py:71 | the comprehension keeps exactly the keys other than `custom` |
| Interactive.ProviderChoices | src/cli/interactive.py:69-72 | the choices are `custom` followed by the comprehension over the configured keys, in order |
| Interactive.ChoicesOfferEveryProvider | src/cli/interactive.py:69-72 | `custom` comes first and exactly once, and every configured key is offered |
| Interactive.DefaultBaseUrl | src/cli/interactive.py:87-89 | `""` for `custom`; the configured base URL for a configured key; a KeyError otherwise |
| Interactive.UrlPromptAfter | src/cli/interactive.py:91-105 | cancelled at the first empty answer, accepted at the first valid one, and still prompting while every answer is a non-empty invalid URL |
| Interactive.AcceptsFirstValidAnswer | src/cli/interactive.py:91-105 | after only rejected answers, the URL accepted is the validated form of the first valid answer |
| Interactive.ConfigureBaseUrl | src/cli/interactive.py:91-105 | the re-prompt loop ends as `UrlPromptAfter` says |
| Interactive.BuildTempProviderConfig | src/cli/interactive.py:107-132 | dumping, popping and re-validating gives `TempConfig`: the given base URL and key, the other fields from the configured provider, or the defaults for `custom` and unknown keys |
| Interactive.CarriedField | src/cli/interactive.py:124-125 | popping `base_url` and `api_key` leaves every other field as it was |
| Interactive.ModelAnswer | src/cli/interactive.py:141-156 | with no models the typed answer counts and otherwise the picked one; a falsy answer is None |
| Interactive.SelectModel | src/cli/interactive.py:134-156 | the offered list is what the provider fetches, and the result follows `ModelAnswer` |
| Interactive.SavedSettingsReload | src/cli/interactive.py:163-168 | the settings payload validates to the chosen provider and model, with that provider at defaults plus the URL |
| Interactive.SettingsPayload | src/cli/interactive.py:163-168 | the settings payload has exactly `model` and `providers`, with one record, for the chosen provider, holding only `base_url` |
| Interactive.SecretsPayload | src/cli/interactive.py:171 | the secrets payload has exactly `providers`, with one record for the chosen provider whose `api_key` is the key given, or `""` when none was |
| Interactive.KeyOnlyInSecrets | src/cli/interactive.py:163-171 | the settings payload's provider record holds only `base_url`; the secrets record holds only `api_key`, which is `""` when no key was given |
| Interactive.RunSetup | src/cli/interactive.py:32-65 | a falsy provider cancels first; an unconfigured key raises; the payloads are produced iff provider, URL and model were all given, and then they are exactly the two payloads |
| Services.CreateLogger | src/cli/core/services.py:25-40 | the level is the configured one upper-cased (no lower-case letter left, same length, equal ignoring case), and a file handler is added iff a log file is set |
| Strings.Upper | src/cli/core/services.py:27 | `upper()` keeps the length, leaves no `a`-`z`, changes no other character, and keeps every character equal ignoring case |
| Strings.UpperIdempotent | src/cli/core/services.py:27 | upper-casing an upper-cased string changes nothing |
| Services.LoggerLevelIdempotent | src/cli/core/services.py:27 | an upper-cased level is left as it is |
| Services.DefaultLoggerDisabled | src/cli/core/services.py:27-40 | default settings log at `DEBUG` with no file handler |
| Services.CreateAgent | src/cli/core/services.py:50-74 | an unselected or unconfigured provider fails; otherwise the agent is built iff the model name and base URL are non-empty, with that name, the URL string, and the key or None when it is empty |
| Services.AgentKeyMatchesHeaders | src/cli/core/services.py:68 | the agent gets a key iff the model-listing request carries an `Authorization` header built from that key |
| Services.ValidatedProviderBuildsAgent | src/cli/core/services.py:56-74 | a selected, configured provider with a non-empty URL and a model name builds exactly that agent |

## Left out

- HTTP I/O is an input. The `httpx` client, the 15-second timeout and `raise_for_status` are not modelled; a status outside 2xx is the HTTP error.
- The JSON decoding of the response body is an input: a decoded `Value`, or none when the body is not JSON.
- Terminal output, `questionary` prompts and Typer dispatch are not modelled. Prompt answers are inputs, and a selected answer is not required to be one of the offered choices, because the source does not check it.
- The async `ask` and `chat` commands are not modelled: they are asyncio and UI.
- JMESPath is covered only for dotted identifier paths. Other syntax is a compile error in this model, whereas the real library may accept it.
- Dynaconf loading, layer merging, environment variables and `.env` are not modelled: they are a foreign library. A TOML parse or dump is not modelled either. Loaded data is an input.
- The generic exception branch of `load_settings` is covered only as the validation-failure exit; other exceptions come from Dynaconf.
- pydantic's `HttpUrl` is a function parameter, and its normalisation is not modelled. A validation error carries only a location.
- urlparse's NFKC netloc check and its `ipaddress` validation of bracketed hosts are not modelled. Only the bracket-shape checks are.
- File-system work is not modelled: directory creation, `touch`, and opening and writing files. Only the written payloads are; an `OSError` while saving only prints.
- The loguru handler options and the pydantic-ai `Agent`/`OpenAIModel` construction are not modelled; they are foreign calls. Only the values handed to them are.
- The rendering of the welcome panel is not modelled; whether it raises is the `welcomeRenders` input.
- `run_setup`'s final `load_settings()` re-reads the files. It is stated only through `SavedSettingsReload`, for the settings payload on its own, because merging in the secrets file is Dynaconf.
- `ConfigManager.reload`, `set_value`, `get_current_settings` and `validate` are not modelled; they are Dynaconf wrappers. The validators in the constructor are left out for the same reason.
- The context manager and the constants modules are not modelled; they are wiring only.
- The process-wide settings singleton is a parameter, and the logger handed to the provider is dropped. Each early `return None` of `run_setup` is a separate outcome naming its step.
- Services.CreateLogger: only the level computation and the file-handler decision are stated. Removing the default handlers and the rotation and retention options are not stated.
- Python's `str()` of a float id is not modelled, because the `Value` datatype has no floats.
- Strings.Lower, Strings.Upper: only ASCII letters change case. Python's `lower()` and `upper()` follow Unicode, so `'Ä'.lower()` is `'ä'` there but unchanged here.
- Values.PyRepr: strings are shown in single quotes with no escaping, and Python's choice of double quotes for text containing `'` is not modelled. This matters only for an id that is a list or a dictionary.
