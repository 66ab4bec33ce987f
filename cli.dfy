/**
 * The two pieces of logic in the command-line entry point (src/cli/cli.py):
 * the start-up gate of the main callback, which re-validates the settings
 * before every subcommand except `config`, and the masking of API keys in
 * the document that `config list` prints.
 */
module Cli {
  import opened Values
  import opened Settings

  // ----- main callback -----

  /** What the main callback does before the subcommand runs. */
  datatype Startup =
    | Welcome        // no subcommand: status panel printed
    | ConfigNotice   // no subcommand, and the panel could not be rendered
    | Proceed        // the subcommand runs
    | Exited(code: int)  // `typer.Exit(code)`

  /** `AppSettings.model_validate(settings.model_dump())` succeeds. */
  predicate Revalidates(settings: AppSettings, httpUrl: UrlValidator) {
    ValidateApp(DumpSettings(settings).entries, httpUrl).Ok?
  }

  /**
   * `main`: without a subcommand print the welcome panel (or, if that
   * raises, a notice) and never exit; with `config` run it unchecked; with
   * any other subcommand re-validate first and exit with 1 on failure.
   */
  function MainCallback(subcommand: Option<string>, settings: AppSettings, httpUrl: UrlValidator, welcomeRenders: bool): (r: Startup)
    ensures r.Exited? <==> subcommand.Some? && subcommand.value != "config" && !Revalidates(settings, httpUrl)
    ensures r.Exited? ==> r.code == 1
    ensures r == Proceed <==> subcommand.Some? && (subcommand.value == "config" || Revalidates(settings, httpUrl))
    ensures subcommand.None? ==> (r == Welcome <==> welcomeRenders) && (r == ConfigNotice <==> !welcomeRenders)
  {
    match subcommand
    case None => if welcomeRenders then Welcome else ConfigNotice
    case Some(name) =>
      if name in ["config"] then Proceed
      else if Revalidates(settings, httpUrl) then Proceed
      else Exited(1)
  }

  /**
   * Settings the loader produced re-validate, so the gate never exits for
   * them, provided the URL type keeps the string form of a URL it accepted.
   */
  lemma LoadedSettingsPassGate(subcommand: Option<string>, settings: AppSettings, httpUrl: UrlValidator, welcomeRenders: bool)
    requires forall i :: 0 <= i < |settings.providers| ==>
               httpUrl(settings.providers[i].1.baseUrl) == Some(settings.providers[i].1.baseUrl)
    ensures !MainCallback(subcommand, settings, httpUrl, welcomeRenders).Exited?
  {
    AppDumpRoundTrip(settings, httpUrl);
  }

  // ----- config list -----

  const Mask := "********"

  /** The record's `api_key` is present and truthy. */
  predicate HasApiKey(entry: Value) {
    entry.Dict? && Get(entry.entries, "api_key").Some? && Truthy(Get(entry.entries, "api_key").value)
  }

  /** A provider record as printed: a set key replaced by the mask, anything else as it was. */
  function RedactEntry(entry: Value): (r: Value)
    ensures r.Dict? <==> entry.Dict?
    ensures HasApiKey(entry) ==> Get(r.entries, "api_key") == Some(Str(Mask))
    ensures !HasApiKey(entry) ==> r == entry
  {
    if HasApiKey(entry) then
      SetGet(entry.entries, "api_key", Str(Mask), "api_key");
      Dict(Set(entry.entries, "api_key", Str(Mask)))
    else entry
  }

  /** The document has a `providers` dictionary. */
  predicate HasProviders(doc: Value) {
    doc.Dict? && Get(doc.entries, "providers").Some? && Get(doc.entries, "providers").value.Dict?
  }

  function ProvidersOf(doc: Value): seq<(string, Value)>
    requires HasProviders(doc)
  {
    Get(doc.entries, "providers").value.entries
  }

  /** `after` is `before` with every record redacted, names and order kept. */
  predicate RedactedSection(before: seq<(string, Value)>, after: seq<(string, Value)>) {
    |after| == |before| && forall i :: 0 <= i < |before| ==> after[i] == (before[i].0, RedactEntry(before[i].1))
  }

  /**
   * The redaction loop of `config_list`, which overwrites
   * `config_dict["providers"][p]["api_key"]` in place for every provider
   * whose record is non-empty and holds a truthy `api_key`.
   */
  method RedactApiKeys(doc: Value) returns (shown: Value)
    ensures !HasProviders(doc) ==> shown == doc
    ensures HasProviders(doc) ==> shown.Dict? && Keys(shown.entries) == Keys(doc.entries)
    ensures HasProviders(doc) ==> forall k :: k != "providers" ==> Get(shown.entries, k) == Get(doc.entries, k)
    ensures HasProviders(doc) ==> HasProviders(shown) && RedactedSection(ProvidersOf(doc), ProvidersOf(shown))
  {
    if !HasProviders(doc) {
      return doc;
    }
    var before := ProvidersOf(doc);
    var section := before;
    var i := 0;
    while i < |section|
      invariant 0 <= i <= |section| == |before|
      invariant forall j :: 0 <= j < i ==> section[j] == (before[j].0, RedactEntry(before[j].1))
      invariant forall j :: i <= j < |section| ==> section[j] == before[j]
    {
      var entry := section[i].1;
      if entry.Dict? && Truthy(entry) && "api_key" in Keys(entry.entries) && Truthy(Get(entry.entries, "api_key").value) {
        section := section[i := (section[i].0, Dict(Set(entry.entries, "api_key", Str(Mask))))];
      }
      i := i + 1;
    }
    shown := Dict(Set(doc.entries, "providers", Dict(section)));
    SetKeys(doc.entries, "providers", Dict(section));
    forall k ensures Get(shown.entries, k) == if k == "providers" then Some(Dict(section)) else Get(doc.entries, k) {
      SetGet(doc.entries, "providers", Dict(section), k);
    }
  }

  /** A redacted record shows the mask for its key and keeps its field names and every other field. */
  lemma RedactEntryFields(entry: Value, k: string)
    requires entry.Dict?
    ensures RedactEntry(entry).Dict? && Keys(RedactEntry(entry).entries) == Keys(entry.entries)
    ensures HasApiKey(entry) ==> Get(RedactEntry(entry).entries, "api_key") == Some(Str(Mask))
    ensures !HasApiKey(entry) ==> RedactEntry(entry) == entry
    ensures k != "api_key" ==> Get(RedactEntry(entry).entries, k) == Get(entry.entries, k)
  {
    if HasApiKey(entry) {
      SetKeys(entry.entries, "api_key", Str(Mask));
      SetGet(entry.entries, "api_key", Str(Mask), k);
      SetGet(entry.entries, "api_key", Str(Mask), "api_key");
    }
  }

  /** Redacting twice is redacting once: the mask is itself a set key. */
  lemma RedactEntryIdempotent(entry: Value)
    ensures RedactEntry(RedactEntry(entry)) == RedactEntry(entry)
  {
    if HasApiKey(entry) {
      var once := Set(entry.entries, "api_key", Str(Mask));
      SetGet(entry.entries, "api_key", Str(Mask), "api_key");
      SetIdempotent(entry.entries, "api_key", Str(Mask));
    }
  }

  lemma {:induction false} SetIdempotent(d: seq<(string, Value)>, k: string, v: Value)
    ensures Set(Set(d, k, v), k, v) == Set(d, k, v)
  {
    if d != [] && d[0].0 != k {
      SetIdempotent(d[1..], k, v);
    }
  }

  /**
   * What `config list` prints for a loaded provider: with a non-empty key
   * the mask, without a key (or with an empty one) its dumped record as it is.
   */
  lemma RedactDumpedProvider(p: ProviderSettings)
    ensures p.apiKey.Some? && p.apiKey.value != "" ==> Get(RedactEntry(DumpProvider(p)).entries, "api_key") == Some(Str(Mask))
    ensures p.apiKey.None? || p.apiKey == Some("") ==> RedactEntry(DumpProvider(p)) == DumpProvider(p)
  {
    DumpedApiKey(p);
    RedactEntryFields(DumpProvider(p), "api_key");
  }

  /** The dumped settings carry the providers section the redaction walks over. */
  lemma DumpedProvidersSection(settings: AppSettings)
    ensures HasProviders(DumpSettings(settings))
    ensures ProvidersOf(DumpSettings(settings)) == DumpProviders(settings.providers)
  {
    DumpedSections(settings);
  }
}
