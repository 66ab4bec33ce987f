/**
 * Model discovery against a provider's HTTP API (src/cli/llm_providers.py).
 * A `GenericLlmProvider` is configured entirely by one provider's settings:
 * it builds the request (URL and optional `Authorization` header, whose
 * credential form `<scheme> <token>` is that of section 11.6.2 of RFC 9110),
 * and turns the JSON answer into a sorted list of model identifiers. Every
 * failure ends in the empty list.
 *
 * The HTTP exchange itself is not modelled: `HttpOutcome` is what the server
 * answered, or that no answer came.
 */
module LlmProviders {
  import opened Values
  import opened Strings
  import opened JmesPath
  import opened Settings

  /** A GET request: target URL and header fields. */
  datatype Request = Request(url: string, headers: map<string, string>)

  /** What the HTTP client returned; `body` is None when the body is not JSON. */
  datatype HttpOutcome =
    | ConnectionFailed
    | Response(status: int, body: Option<Value>)

  /** Why `fetch_models` produced no list (each is reported on the console and the log). */
  datatype FetchFailure =
    | NoBaseUrl
    | HttpStatus(status: int)
    | Network
    | BadPath(error: PathError)
    | NotAList(found: Value)
    | Unexpected

  // ----- request -----

  /** The header map holds `Authorization: <prefix> <key>` exactly when a non-empty key is set, and nothing else. */
  predicate HeadersFor(config: ProviderSettings, headers: map<string, string>) {
    && headers.Keys <= {"Authorization"}
    && ("Authorization" in headers <==> config.apiKey.Some? && config.apiKey.value != "")
    && ("Authorization" in headers ==> headers["Authorization"] == config.authHeaderPrefix + " " + config.apiKey.value)
  }

  /**
   * `f"{base_url.rstrip('/')}{models_endpoint}"`: the endpoint is appended
   * verbatim to the base URL with all its trailing slashes removed.
   */
  function RequestUrl(baseUrl: string, endpoint: string): (r: string)
    ensures |r| >= |endpoint| && r[|r| - |endpoint|..] == endpoint
    ensures var b := r[..|r| - |endpoint|];
            && b <= baseUrl && AllChar(baseUrl[|b|..], '/')
            && (b == [] || b[|b| - 1] != '/')
  {
    var b := RStrip(baseUrl, '/');
    assert (b + endpoint)[..|b|] == b;
    b + endpoint
  }

  // ----- extraction -----

  /** The elements of a list that are objects, in order (`if isinstance(item, dict)`). */
  function DictItems(items: seq<Value>): (r: seq<Value>)
    ensures |r| <= |items|
    ensures forall v :: v in r <==> v in items && v.Dict?
    ensures forall v :: multiset(r)[v] == if v.Dict? then multiset(items)[v] else 0
  {
    if items == [] then []
    else
      assert items == [items[0]] + items[1..];
      (if items[0].Dict? then [items[0]] else []) + DictItems(items[1..])
  }

  /** `[jmespath.search(key, item) for item in dicts]`; the key is compiled anew for each item. */
  function LookupIds(idKey: string, dicts: seq<Value>): (r: Result<seq<Value>, PathError>)
    ensures r.Err? <==> dicts != [] && Compile(idKey).Err?
    ensures r.Ok? ==> |r.value| == |dicts|
    ensures r.Ok? ==> forall i :: 0 <= i < |dicts| ==> Search(idKey, dicts[i]) == Ok(r.value[i])
  {
    if dicts == [] then Ok([])
    else
      match Search(idKey, dicts[0])
      case Err(e) => Err(e)
      case Ok(id) =>
        match LookupIds(idKey, dicts[1..])
        case Err(e) => Err(e)
        case Ok(rest) =>
          assert forall i :: 1 <= i < |dicts| ==> dicts[1..][i - 1] == dicts[i];
          Ok([id] + rest)
  }

  /** How many of the values are truthy. */
  function CountTruthy(ids: seq<Value>): nat {
    if ids == [] then 0 else (if Truthy(ids[0]) then 1 else 0) + CountTruthy(ids[1..])
  }

  /** How many of the ids are truthy with string form `s`. */
  function CountKept(ids: seq<Value>, s: string): nat {
    if ids == [] then 0 else (if Truthy(ids[0]) && PyStr(ids[0]) == s then 1 else 0) + CountKept(ids[1..], s)
  }

  /**
   * `[str(mid) for mid in ids if mid]`: one string per truthy id, so equal
   * ids are kept twice; falsy ids (None, "", 0, empty containers) are dropped.
   */
  function KeptIds(ids: seq<Value>): (r: seq<string>)
    ensures |r| == CountTruthy(ids) <= |ids|
    ensures forall s :: multiset(r)[s] == CountKept(ids, s)
    ensures forall s :: s in r ==> exists i :: 0 <= i < |ids| && Truthy(ids[i]) && PyStr(ids[i]) == s
    ensures forall i :: 0 <= i < |ids| && Truthy(ids[i]) ==> PyStr(ids[i]) in r
  {
    if ids == [] then []
    else
      var rest := KeptIds(ids[1..]);
      assert forall i :: 1 <= i < |ids| ==> ids[1..][i - 1] == ids[i];
      (if Truthy(ids[0]) then [PyStr(ids[0])] else []) + rest
  }

  /** The list found at the response path, or why there is none. */
  function ModelsList(path: string, data: Value): (r: Result<seq<Value>, FetchFailure>)
    ensures r.Err? && r.error.BadPath? <==> Search(path, data).Err?
    ensures r.Err? && r.error.NotAList? <==> Search(path, data).Ok? && !Search(path, data).value.List?
    ensures r.Ok? <==> Search(path, data).Ok? && Search(path, data).value.List?
    ensures r.Ok? ==> r.value == Search(path, data).value.items
  {
    match Search(path, data)
    case Err(e) => Err(BadPath(e))
    case Ok(found) => if found.List? then Ok(found.items) else Err(NotAList(found))
  }

  /** The string ids of a list of models, before sorting. */
  function ModelIds(idKey: string, items: seq<Value>): (r: Result<seq<string>, FetchFailure>)
    ensures r.Err? <==> DictItems(items) != [] && Compile(idKey).Err?
    ensures r.Ok? ==> r.value == KeptIds(LookupIds(idKey, DictItems(items)).value)
  {
    match LookupIds(idKey, DictItems(items))
    case Err(e) => Err(BadPath(e))
    case Ok(ids) => Ok(KeptIds(ids))
  }

  /**
   * The extraction in `fetch_models` applied to a decoded JSON body: the
   * value at `models_response_path` must be a list; each object in it gives
   * the value at `model_id_key`; truthy ids are stringified and sorted.
   */
  function ExtractModelIds(config: ProviderSettings, data: Value): (r: Result<seq<string>, FetchFailure>)
    ensures r.Ok? <==> ModelsList(config.modelsResponsePath, data).Ok?
                       && ModelIds(config.modelIdKey, ModelsList(config.modelsResponsePath, data).value).Ok?
    ensures r.Ok? ==> var ids := ModelIds(config.modelIdKey, ModelsList(config.modelsResponsePath, data).value).value;
                      Sorted(r.value) && multiset(r.value) == multiset(ids)
    ensures r.Err? ==> r.error.BadPath? || r.error.NotAList?
  {
    var items :- ModelsList(config.modelsResponsePath, data);
    var ids :- ModelIds(config.modelIdKey, items);
    Ok(SortStrings(ids))
  }

  /** The outcome of the whole exchange once a request was sent. */
  function ResponseModels(config: ProviderSettings, outcome: HttpOutcome): (r: Result<seq<string>, FetchFailure>)
    ensures r.Err? && r.error == Network <==> outcome.ConnectionFailed?
    ensures r.Err? && r.error.HttpStatus? <==> outcome.Response? && !(200 <= outcome.status < 300)
    ensures r.Err? && r.error == Unexpected <==> outcome.Response? && 200 <= outcome.status < 300 && outcome.body.None?
    ensures r.Err? ==> !r.error.NoBaseUrl?
    ensures r.Ok? <==> outcome.Response? && 200 <= outcome.status < 300 && outcome.body.Some?
                       && ExtractModelIds(config, outcome.body.value).Ok?
    ensures r.Ok? ==> r == ExtractModelIds(config, outcome.body.value)
  {
    match outcome
    case ConnectionFailed => Err(Network)
    case Response(status, body) =>
      if !(200 <= status < 300) then Err(HttpStatus(status))
      else
        match body
        case None => Err(Unexpected)
        case Some(data) => ExtractModelIds(config, data)
  }

  /** The list `fetch_models` returns: empty on every failure. */
  function FetchedModels(config: ProviderSettings, outcome: HttpOutcome): (ms: seq<string>)
    ensures Sorted(ms)
    ensures config.baseUrl == "" ==> ms == []
    ensures ms != [] ==> ResponseModels(config, outcome) == Ok(ms)
  {
    if config.baseUrl == "" then []
    else
      match ResponseModels(config, outcome)
      case Ok(ms) => ms
      case Err(_) => []
  }

  // ----- the provider -----

  class GenericLlmProvider {
    const config: ProviderSettings

    constructor(config: ProviderSettings)
      ensures this.config == config
    {
      this.config := config;
    }

    /** `_get_api_headers` */
    method GetApiHeaders() returns (headers: map<string, string>)
      ensures HeadersFor(config, headers)
    {
      headers := map[];
      if config.apiKey.Some? && config.apiKey.value != "" {
        headers := headers["Authorization" := config.authHeaderPrefix + " " + config.apiKey.value];
      }
    }

    /**
     * `fetch_models`: with no base URL nothing is sent; otherwise the request
     * is built and `outcome` is the answer to it. Returns the request sent,
     * the model list, and the failure that emptied it, if any.
     */
    method FetchModels(outcome: HttpOutcome) returns (request: Option<Request>, models: seq<string>, failure: Option<FetchFailure>)
      ensures request.None? <==> config.baseUrl == ""
      ensures request.Some? ==> request.value.url == RequestUrl(config.baseUrl, config.modelsEndpoint)
                                && HeadersFor(config, request.value.headers)
      ensures request.None? ==> failure == Some(NoBaseUrl)
      ensures request.Some? ==> match ResponseModels(config, outcome)
                                case Ok(ms) => models == ms && failure.None?
                                case Err(e) => failure == Some(e)
      ensures failure.Some? ==> models == []
      ensures models == FetchedModels(config, outcome)
    {
      if config.baseUrl == "" {
        return None, [], Some(NoBaseUrl);
      }
      var url := RequestUrl(config.baseUrl, config.modelsEndpoint);
      var headers := GetApiHeaders();
      request := Some(Request(url, headers));
      var result := ResponseModels(config, outcome);
      match result {
        case Ok(ms) =>
          models, failure := ms, None;
        case Err(e) =>
          models, failure := [], Some(e);
      }
    }
  }

  // ----- properties -----

  /** An object in `items` whose id is truthy and whose string form is `s`. */
  predicate IdSource(idKey: string, items: seq<Value>, s: string) {
    exists d :: d in items && d.Dict? && IdOf(idKey, d, s)
  }

  predicate IdOf(idKey: string, d: Value, s: string) {
    Search(idKey, d).Ok? && Truthy(Search(idKey, d).value) && PyStr(Search(idKey, d).value) == s
  }

  lemma ModelIdsFromObjects(idKey: string, items: seq<Value>, s: string)
    requires ModelIds(idKey, items).Ok? && s in ModelIds(idKey, items).value
    ensures IdSource(idKey, items, s)
  {
    var dicts := DictItems(items);
    var ids := LookupIds(idKey, dicts).value;
    var i :| 0 <= i < |ids| && Truthy(ids[i]) && PyStr(ids[i]) == s;
    assert Search(idKey, dicts[i]) == Ok(ids[i]);
    assert dicts[i] in dicts;
    assert IdOf(idKey, dicts[i], s);
  }

  /** Every returned id is `str` of the id of some object in the list, and there are no more ids than objects. */
  lemma ExtractedIdsComeFromObjects(config: ProviderSettings, data: Value)
    requires ExtractModelIds(config, data).Ok?
    ensures var items := ModelsList(config.modelsResponsePath, data).value;
            var ms := ExtractModelIds(config, data).value;
            && |ms| <= |DictItems(items)|
            && forall s :: s in ms ==> IdSource(config.modelIdKey, items, s)
  {
    var items := ModelsList(config.modelsResponsePath, data).value;
    var kept := ModelIds(config.modelIdKey, items).value;
    var ms := ExtractModelIds(config, data).value;
    assert |ms| == |kept| by {
      assert |multiset(ms)| == |ms| && |multiset(kept)| == |kept|;
    }
    forall s | s in ms ensures IdSource(config.modelIdKey, items, s) {
      assert s in multiset(kept);
      ModelIdsFromObjects(config.modelIdKey, items, s);
    }
  }

  /** Each object with a truthy id contributes its string form to the result. */
  lemma EveryTruthyIdIsReturned(config: ProviderSettings, data: Value, d: Value)
    requires ExtractModelIds(config, data).Ok?
    requires d in ModelsList(config.modelsResponsePath, data).value && d.Dict?
    requires Search(config.modelIdKey, d).Ok? && Truthy(Search(config.modelIdKey, d).value)
    ensures PyStr(Search(config.modelIdKey, d).value) in ExtractModelIds(config, data).value
  {
    var items := ModelsList(config.modelsResponsePath, data).value;
    var dicts := DictItems(items);
    var ids := LookupIds(config.modelIdKey, dicts).value;
    var ms := ExtractModelIds(config, data).value;
    assert d in dicts;
    var i :| 0 <= i < |dicts| && dicts[i] == d;
    assert Search(config.modelIdKey, dicts[i]) == Ok(ids[i]);
    assert PyStr(ids[i]) in KeptIds(ids);
    assert PyStr(ids[i]) in multiset(ms);
  }

  /** How many objects in `items` have a truthy id whose string form is `s`. */
  function CountObjectIds(idKey: string, items: seq<Value>, s: string): nat {
    if items == [] then 0
    else (if items[0].Dict? && IdOf(idKey, items[0], s) then 1 else 0) + CountObjectIds(idKey, items[1..], s)
  }

  /**
   * Each model name occurs in the result exactly as often as there are
   * objects in the list whose truthy id has that string form: nothing is
   * merged, nothing is invented.
   */
  lemma ExtractedIdCounts(config: ProviderSettings, data: Value, s: string)
    requires ExtractModelIds(config, data).Ok?
    ensures var items := ModelsList(config.modelsResponsePath, data).value;
            multiset(ExtractModelIds(config, data).value)[s] == CountObjectIds(config.modelIdKey, items, s)
  {
    var items := ModelsList(config.modelsResponsePath, data).value;
    ObjectIdCount(config.modelIdKey, items, s);
  }

  lemma {:induction false} ObjectIdCount(idKey: string, items: seq<Value>, s: string)
    requires LookupIds(idKey, DictItems(items)).Ok?
    ensures CountKept(LookupIds(idKey, DictItems(items)).value, s) == CountObjectIds(idKey, items, s)
    decreases |items|
  {
    if items != [] {
      var h, rest := items[0], items[1..];
      var dr := DictItems(rest);
      assert DictItems(items) == (if h.Dict? then [h] else []) + dr;
      assert LookupIds(idKey, dr).Ok?;
      ObjectIdCount(idKey, rest, s);
      var xs := LookupIds(idKey, dr).value;
      var tailCount := CountObjectIds(idKey, rest, s);
      assert CountKept(xs, s) == tailCount;
      if h.Dict? {
        assert DictItems(items) == [h] + dr;
        var x := Search(idKey, h).value;
        LookupCons(idKey, h, dr, x, xs);
        CountKeptCons(x, xs, s);
        assert IdOf(idKey, h, s) <==> Truthy(x) && PyStr(x) == s;
        assert CountObjectIds(idKey, items, s) == (if IdOf(idKey, h, s) then 1 else 0) + tailCount;
      } else {
        assert DictItems(items) == dr;
        assert CountObjectIds(idKey, items, s) == tailCount;
      }
    }
  }

  lemma CountKeptCons(x: Value, xs: seq<Value>, s: string)
    ensures CountKept([x] + xs, s) == (if Truthy(x) && PyStr(x) == s then 1 else 0) + CountKept(xs, s)
  {
    assert ([x] + xs)[1..] == xs;
  }

  /** A value at the response path that is not a list yields no models. */
  lemma NonListGivesNothing(config: ProviderSettings, data: Value)
    requires Search(config.modelsResponsePath, data).Ok? && !Search(config.modelsResponsePath, data).value.List?
    ensures ExtractModelIds(config, data) == Err(NotAList(Search(config.modelsResponsePath, data).value))
  {
  }

  /** Two objects with the same id give that id twice: the list is not deduplicated. */
  lemma DuplicatesAreKept(idKey: string, id: Value)
    requires IsIdentifier(idKey) && Truthy(id)
    ensures var item := Dict([(idKey, id)]);
            ModelIds(idKey, [item, item]) == Ok([PyStr(id), PyStr(id)])
  {
    var item := Dict([(idKey, id)]);
    SearchKey(idKey, item);
    assert Search(idKey, item) == Ok(id);
    assert [item, item][1..] == [item] && [id, id][1..] == [id];
    assert DictItems([item, item]) == [item, item];
    LookupCons(idKey, item, [], id, []);
    assert [item] + [] == [item] && [id] + [] == [id];
    LookupCons(idKey, item, [item], id, [id]);
    assert [item] + [item] == [item, item] && [id] + [id] == [id, id];
    assert KeptIds([id, id]) == [PyStr(id), PyStr(id)];
  }

  /** The default settings (path `data`, key `id`) on an OpenAI-style body `{"data": [{"id": m}, ...]}`. */
  lemma OpenAiStyleBody(m1: string, m2: string)
    requires m1 != "" && m2 != "" && LexLe(m2, m1) && m1 != m2
    ensures var config := ProviderWithDefaults("https://api.openai.com/v1");
            var body := Dict([("data", List(OpenAiItems(m1, m2)))]);
            ExtractModelIds(config, body) == Ok([m2, m1])
  {
    var config := ProviderWithDefaults("https://api.openai.com/v1");
    var body := Dict([("data", List(OpenAiItems(m1, m2)))]);
    DefaultKeysAreIdentifiers();
    SearchKey("data", body);
    assert ModelsList("data", body) == Ok(OpenAiItems(m1, m2));
    OpenAiItemIds(m1, m2);
    var r := ExtractModelIds(config, body).value;
    assert multiset(r) == multiset{m1, m2};
    TwoSorted(r, m1, m2);
  }

  /** Two models, a stray string and a model with a null id, in that arrangement. */
  function OpenAiItems(m1: string, m2: string): seq<Value> {
    [Dict([("id", Str(m1))]), Str("ignored"), Dict([("id", Null)]), Dict([("id", Str(m2))])]
  }

  lemma OpenAiItemIds(m1: string, m2: string)
    requires m1 != "" && m2 != ""
    ensures ModelIds("id", OpenAiItems(m1, m2)) == Ok([m1, m2])
  {
    var a, b, c := Dict([("id", Str(m1))]), Dict([("id", Null)]), Dict([("id", Str(m2))]);
    OpenAiObjects(m1, m2);
    DefaultKeysAreIdentifiers();
    SearchKey("id", a);
    SearchKey("id", b);
    SearchKey("id", c);
    LookupThree("id", a, b, c, Str(m1), Null, Str(m2));
    KeepFirstAndLast(Str(m1), Null, Str(m2));
  }

  lemma OpenAiObjects(m1: string, m2: string)
    ensures DictItems(OpenAiItems(m1, m2)) == [Dict([("id", Str(m1))]), Dict([("id", Null)]), Dict([("id", Str(m2))])]
  {
    DictItemsSkipSecond(Dict([("id", Str(m1))]), Str("ignored"), Dict([("id", Null)]), Dict([("id", Str(m2))]));
  }

  lemma DictItemsSkipSecond(a: Value, x: Value, b: Value, c: Value)
    requires a.Dict? && !x.Dict? && b.Dict? && c.Dict?
    ensures DictItems([a, x, b, c]) == [a, b, c]
  {
    DictItemsSkipFirst(x, b, c);
    DictItemsKeepHead(a, [x, b, c]);
    ConsDisplays(a, x, b, c);
  }

  lemma ConsDisplays<T>(a: T, x: T, b: T, c: T)
    ensures [a] + [x, b, c] == [a, x, b, c] && [a] + [b, c] == [a, b, c]
  {
  }

  lemma DictItemsKeepHead(a: Value, rest: seq<Value>)
    requires a.Dict?
    ensures DictItems([a] + rest) == [a] + DictItems(rest)
  {
    assert ([a] + rest)[1..] == rest;
  }

  lemma DictItemsSkipFirst(x: Value, b: Value, c: Value)
    requires !x.Dict? && b.Dict? && c.Dict?
    ensures DictItems([x, b, c]) == [b, c]
  {
    DictItemsPair(b, c);
    assert [x, b, c][1..] == [b, c];
  }

  lemma DictItemsPair(b: Value, c: Value)
    requires b.Dict? && c.Dict?
    ensures DictItems([b, c]) == [b, c]
  {
    assert [b, c][1..] == [c];
    assert [c][1..] == [];
    assert DictItems([c]) == [c];
    assert [b] + [c] == [b, c];
  }

  lemma KeepFirstAndLast(x: Value, y: Value, z: Value)
    requires Truthy(x) && !Truthy(y) && Truthy(z)
    ensures KeptIds([x, y, z]) == [PyStr(x), PyStr(z)]
  {
    var ids := [x, y, z];
    assert ids[1..] == [y, z];
    assert ids[1..][1..] == [z];
  }

  lemma LookupThree(idKey: string, a: Value, b: Value, c: Value, x: Value, y: Value, z: Value)
    requires Search(idKey, a) == Ok(x) && Search(idKey, b) == Ok(y) && Search(idKey, c) == Ok(z)
    ensures LookupIds(idKey, [a, b, c]) == Ok([x, y, z])
  {
    LookupCons(idKey, c, [], z, []);
    assert [c] + [] == [c] && [z] + [] == [z];
    LookupCons(idKey, b, [c], y, [z]);
    assert [b] + [c] == [b, c] && [y] + [z] == [y, z];
    LookupCons(idKey, a, [b, c], x, [y, z]);
    assert [a] + [b, c] == [a, b, c] && [x] + [y, z] == [x, y, z];
  }

  lemma LookupCons(idKey: string, d: Value, ds: seq<Value>, x: Value, xs: seq<Value>)
    requires Search(idKey, d) == Ok(x) && LookupIds(idKey, ds) == Ok(xs)
    ensures LookupIds(idKey, [d] + ds) == Ok([x] + xs)
  {
    assert ([d] + ds)[1..] == ds;
  }

  lemma DefaultKeysAreIdentifiers()
    ensures IsIdentifier("data") && IsIdentifier("id")
  {
  }

  /** The only sorted arrangement of two distinct strings. */
  lemma TwoSorted(r: seq<string>, m1: string, m2: string)
    requires Sorted(r) && multiset(r) == multiset{m1, m2}
    requires LexLe(m2, m1) && m1 != m2
    ensures r == [m2, m1]
  {
    assert |r| == 2 by {
      assert |multiset(r)| == |r|;
    }
    assert r[0] in multiset(r) && r[1] in multiset(r);
    if r[0] == m1 {
      assert r[1] == m2 by {
        assert multiset(r) == multiset{r[0], r[1]} by { assert r == [r[0], r[1]]; }
      }
      LexLeAntisymmetric(m1, m2);
    } else {
      assert r[0] == m2;
      assert multiset(r) == multiset{r[0], r[1]} by { assert r == [r[0], r[1]]; }
    }
  }

  /** Without an `api_key` (or with an empty one) no header at all is sent. */
  lemma NoKeyNoHeaders(config: ProviderSettings, headers: map<string, string>)
    requires config.apiKey.None? || config.apiKey == Some("")
    requires HeadersFor(config, headers)
    ensures headers == map[]
  {
  }
}
