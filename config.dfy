/**
 * The URL check used by the settings validators and the interactive setup,
 * and the payload shaping of `ConfigManager.save_config` (src/cli/config.py).
 *
 * `is_valid_url` relies on Python's `urllib.parse.urlparse`: the split of a
 * URL into scheme and authority ("netloc") of sections 3.1 and 3.2 of
 * RFC 3986, done the way CPython 3.11+ does it. The part of that split which
 * decides scheme and netloc is modelled here; query, fragment and path
 * parameters do not influence the result and are not split.
 */
module Config {
  import opened Values
  import Strings

  datatype ParsedUrl = ParsedUrl(scheme: string, netloc: string, rest: string)

  /** urlparse raises `ValueError("Invalid IPv6 URL")` on a malformed bracketed host. */
  datatype UrlError = InvalidIPv6

  // ----- urlsplit -----

  /** The WHATWG "C0 control or space" set that urlsplit strips from the front. */
  predicate C0OrSpace(c: char) {
    c <= ' '
  }

  predicate Unsafe(c: char) {
    c == '\t' || c == '\r' || c == '\n'
  }

  predicate AsciiAlpha(c: char) {
    ('A' <= c <= 'Z') || ('a' <= c <= 'z')
  }

  /** `scheme_chars`: letters, digits and `+-.`. */
  predicate SchemeChar(c: char) {
    AsciiAlpha(c) || ('0' <= c <= '9') || c == '+' || c == '-' || c == '.'
  }

  function LStripC0(s: string): (r: string)
    ensures |r| <= |s| && r == s[|s| - |r|..]
    ensures r == [] || !C0OrSpace(r[0])
    ensures forall j :: 0 <= j < |s| - |r| ==> C0OrSpace(s[j])
  {
    if s != [] && C0OrSpace(s[0]) then
      var r := LStripC0(s[1..]);
      assert forall j :: 1 <= j < |s| - |r| ==> s[j] == s[1..][j - 1];
      r
    else s
  }

  /** Remove every tab, carriage return and line feed. */
  function RemoveUnsafe(s: string): (r: string)
    ensures |r| <= |s|
    ensures forall i :: 0 <= i < |r| ==> !Unsafe(r[i])
    ensures (forall i :: 0 <= i < |s| ==> !Unsafe(s[i])) ==> r == s
  {
    if s == [] then []
    else if Unsafe(s[0]) then RemoveUnsafe(s[1..])
    else [s[0]] + RemoveUnsafe(s[1..])
  }

  /** The text urlsplit actually splits. */
  function Cleaned(url: string): string {
    RemoveUnsafe(LStripC0(url))
  }

  /** `s.find(c)`, with `|s|` for "not found". */
  function IndexOf(s: string, c: char): (r: nat)
    ensures r <= |s|
    ensures r < |s| ==> s[r] == c
    ensures forall j :: 0 <= j < r ==> s[j] != c
  {
    if s == [] then 0
    else if s[0] == c then 0
    else 1 + IndexOf(s[1..], c)
  }

  /** Position of the first `/`, `?` or `#` at or after index 2 (`_splitnetloc`). */
  function NetlocEnd(s: string, i: nat): (r: nat)
    requires i <= |s|
    ensures i <= r <= |s|
    ensures r < |s| ==> s[r] in "/?#"
    ensures forall j :: i <= j < r ==> s[j] !in "/?#"
    decreases |s| - i
  {
    if i == |s| || s[i] in "/?#" then i else NetlocEnd(s, i + 1)
  }

  predicate HasSchemePrefix(url: string) {
    var i := IndexOf(url, ':');
    0 < i < |url| && url[0] < 128 as char && AsciiAlpha(url[0]) && forall j :: 0 <= j < i ==> SchemeChar(url[j])
  }

  /** The bracket checks of `_check_bracketed_netloc` that do not need the ipaddress module. */
  function CheckBrackets(netloc: string): (r: Result<(), UrlError>)
    ensures '[' !in netloc && ']' !in netloc ==> r.Ok?
    ensures ('[' in netloc) != (']' in netloc) ==> r.Err?
  {
    var opens := '[' in netloc;
    var closes := ']' in netloc;
    if opens != closes then Err(InvalidIPv6)
    else if !opens then Ok(())
    else
      var at := LastIndexOf(netloc, '@');
      var hostPort := if at < |netloc| then netloc[at + 1..] else netloc;
      var b := IndexOf(hostPort, '[');
      if b == |hostPort| then Ok(())
      else if b > 0 then Err(InvalidIPv6)
      else
        var bracketed := hostPort[b + 1..];
        var e := IndexOf(bracketed, ']');
        var port := if e < |bracketed| then bracketed[e + 1..] else "";
        if port != "" && port[0] != ':' then Err(InvalidIPv6) else Ok(())
  }

  /** `s.rfind(c)`, with `|s|` for "not found". */
  function LastIndexOf(s: string, c: char): (r: nat)
    ensures r <= |s|
    ensures r < |s| ==> s[r] == c && forall j :: r < j < |s| ==> s[j] != c
    ensures r == |s| ==> c !in s
  {
    if s == [] then 0
    else if s[|s| - 1] == c then |s| - 1
    else
      var r := LastIndexOf(s[..|s| - 1], c);
      if r == |s| - 1 then |s| else r
  }

  /** Take the scheme off when the text before the first `:` is one; it comes out lower-cased. */
  function SplitScheme(url: string): (r: (string, string))
  {
    if HasSchemePrefix(url) then
      var i := IndexOf(url, ':');
      (Strings.Lower(url[..i]), url[i + 1..])
    else ("", url)
  }

  /** `url[:2] == '//'`: an authority follows. */
  predicate HasAuthority(s: string) {
    |s| >= 2 && s[0] == '/' && s[1] == '/'
  }

  /** After `//`, the netloc runs up to the first `/`, `?` or `#`. */
  function SplitNetloc(s: string): (r: Result<(string, string), UrlError>)
    ensures !HasAuthority(s) ==> r == Ok(("", s))
    ensures r.Ok? && HasAuthority(s) ==>
              && s == "//" + r.value.0 + r.value.1
              && (forall c :: c in r.value.0 ==> c !in "/?#")
              && (r.value.1 == [] || r.value.1[0] in "/?#")
  {
    if HasAuthority(s) then
      var end := NetlocEnd(s, 2);
      var netloc := s[2..end];
      match CheckBrackets(netloc)
      case Err(e) => Err(e)
      case Ok(_) => Ok((netloc, s[end..]))
    else Ok(("", s))
  }

  /**
   * `urlparse(value)`, as far as scheme and netloc go: the scheme comes back
   * lower-cased, and only a bracket in the text can make it raise.
   */
  function UrlParse(value: string): (r: Result<ParsedUrl, UrlError>)
    ensures r.Ok? ==> forall i :: 0 <= i < |r.value.scheme| ==> !('A' <= r.value.scheme[i] <= 'Z')
    ensures r.Err? ==> '[' in value || ']' in value
  {
    var split := SplitScheme(Cleaned(value));
    var scheme := split.0;
    var afterScheme := split.1;
    match SplitNetloc(afterScheme)
    case Err(e) =>
      SplitNetlocError(afterScheme);
      SchemeTail(Cleaned(value));
      CleanedKeepsChars(value);
      Err(e)
    case Ok((netloc, rest)) => Ok(ParsedUrl(scheme, netloc, rest))
  }

  /** The netloc split fails only on a bracket. */
  lemma SplitNetlocError(s: string)
    requires SplitNetloc(s).Err?
    ensures '[' in s || ']' in s
  {
    var end := NetlocEnd(s, 2);
    var netloc := s[2..end];
    assert CheckBrackets(netloc).Err?;
    assert s == s[..2] + netloc + s[end..];
  }

  /** What follows the scheme is part of the text. */
  lemma SchemeTail(url: string)
    ensures forall c :: c in SplitScheme(url).1 ==> c in url
  {
    if HasSchemePrefix(url) {
      var i := IndexOf(url, ':');
      assert url == url[..i + 1] + url[i + 1..];
    }
  }

  /** Cleaning only removes characters. */
  lemma CleanedKeepsChars(u: string)
    ensures forall c :: c in Cleaned(u) ==> c in u
  {
    var stripped := LStripC0(u);
    RemoveUnsafeKeepsChars(stripped);
    assert u == u[..|u| - |stripped|] + stripped;
  }

  lemma {:induction false} RemoveUnsafeKeepsChars(s: string)
    ensures forall c :: c in RemoveUnsafe(s) ==> c in s
  {
    if s != [] {
      RemoveUnsafeKeepsChars(s[1..]);
      assert s == [s[0]] + s[1..];
    }
  }

  /**
   * `is_valid_url(value)`: a string whose parsed scheme is http or https and
   * whose netloc is non-empty. Anything that is not a string, and any text
   * urlparse rejects, is invalid.
   */
  function IsValidUrl(value: Value): (r: bool)
    ensures !value.Str? ==> !r
    ensures value.Str? && UrlParse(value.s).Err? ==> !r
    ensures value.Str? && UrlParse(value.s).Ok? ==>
      (r <==> UrlParse(value.s).value.scheme in {"http", "https"} && UrlParse(value.s).value.netloc != "")
  {
    match value
    case Str(s) =>
      (match UrlParse(s)
       case Ok(p) => (p.scheme == "http" || p.scheme == "https") && p.netloc != ""
       case Err(_) => false)
    case _ => false
  }

  /** `ConfigManager.validate_url_input`: the same verdict as `is_valid_url` for every input. */
  function ValidateUrlInput(url: string): (r: bool)
    ensures r == IsValidUrl(Str(url))
  {
    IsValidUrl(Str(url))
  }

  // ----- properties of the URL check -----

  /** What an accepted URL looks like, after the leading controls and tabs/newlines are dropped. */
  lemma ValidUrlShape(u: string)
    requires IsValidUrl(Str(u))
    ensures var c := Cleaned(u); var i := IndexOf(c, ':');
      && 0 < i && i + 3 <= |c|
      && Strings.Lower(c[..i]) in {"http", "https"}
      && c[i + 1] == '/' && c[i + 2] == '/'
      && NetlocEnd(c, i + 3) > i + 3
  {
    var c := Cleaned(u);
    var sp := SplitScheme(c);
    assert (sp.0 == "http" || sp.0 == "https") && HasAuthority(sp.1)
           && SplitNetloc(sp.1).Ok? && SplitNetloc(sp.1).value.0 != "" by {
      var p := UrlParse(u).value;
      assert sp.0 == p.scheme && SplitNetloc(sp.1) == Ok((p.netloc, p.rest));
    }
    assert HasSchemePrefix(c);
    var i := IndexOf(c, ':');
    var after := c[i + 1..];
    assert sp == (Strings.Lower(c[..i]), after);
    assert NetlocEnd(after, 2) > 2;
    NetlocEndShift(c, i + 1, 2);
  }

  lemma {:induction false} NetlocEndShift(s: string, off: nat, i: nat)
    requires off + i <= |s|
    ensures NetlocEnd(s[off..], i) + off == NetlocEnd(s, off + i)
    decreases |s| - off - i
  {
    if off + i < |s| && s[off + i] !in "/?#" {
      NetlocEndShift(s, off, i + 1);
    }
  }

  predicate HttpScheme(s: string) {
    Strings.Lower(s) == "http" || Strings.Lower(s) == "https"
  }

  /**
   * Conversely, `<http or https, any case>://<host><rest>` is accepted when
   * the host is non-empty and has no delimiter or bracket, nothing is a
   * control character or space, and the rest starts at a delimiter.
   */
  lemma AcceptsHttpUrl(scheme: string, host: string, rest: string)
    requires HttpScheme(scheme)
    requires host != [] && forall c :: c in host ==> c !in "/?#[]" && !C0OrSpace(c)
    requires forall c :: c in rest ==> !C0OrSpace(c)
    requires rest == [] || rest[0] in "/?#"
    ensures IsValidUrl(Str(scheme + "://" + host + rest))
  {
    var tail := "//" + host + rest;
    assert scheme + "://" + host + rest == scheme + ":" + tail;
    AuthorityTail(host, rest);
    HttpSchemeThenNetloc(scheme, tail);
  }

  /** An http(s) scheme, a colon, and a tail whose netloc is non-empty. */
  lemma HttpSchemeThenNetloc(scheme: string, tail: string)
    requires HttpScheme(scheme)
    requires forall c :: c in tail ==> !C0OrSpace(c)
    requires SplitNetloc(tail).Ok? && SplitNetloc(tail).value.0 != ""
    ensures IsValidUrl(Str(scheme + ":" + tail))
  {
    var u := scheme + ":" + tail;
    assert Cleaned(u) == u && SplitScheme(u) == (Strings.Lower(scheme), tail) by {
      SchemeLetters(scheme);
      SchemeColon(scheme, tail);
    }
    NetlocValid(u, Strings.Lower(scheme), tail);
  }

  /** `//<host><rest>` has no control characters, and its netloc is the host. */
  lemma AuthorityTail(host: string, rest: string)
    requires forall c :: c in host ==> c !in "/?#[]" && !C0OrSpace(c)
    requires forall c :: c in rest ==> !C0OrSpace(c)
    requires rest == [] || rest[0] in "/?#"
    ensures forall c :: c in "//" + host + rest ==> !C0OrSpace(c)
    ensures SplitNetloc("//" + host + rest) == Ok((host, rest))
  {
    assert forall c :: c in "//" + host + rest ==> c in "//" || c in host || c in rest;
    NetlocSplit(host, rest);
  }

  /** An http(s) scheme followed by a non-empty netloc passes the check. */
  lemma NetlocValid(u: string, scheme: string, tail: string)
    requires Cleaned(u) == u && SplitScheme(u) == (scheme, tail)
    requires scheme == "http" || scheme == "https"
    requires SplitNetloc(tail).Ok? && SplitNetloc(tail).value.0 != ""
    ensures IsValidUrl(Str(u))
  {
    ParsedAfterScheme(u, scheme, tail);
  }

  /** Text without controls or spaces is split as it stands. */
  lemma CleanConcat(a: string, b: string)
    requires forall c :: c in a ==> !C0OrSpace(c)
    requires forall c :: c in b ==> !C0OrSpace(c)
    ensures Cleaned(a + b) == a + b
  {
    var u := a + b;
    forall j | 0 <= j < |u| ensures !C0OrSpace(u[j]) {
      if j < |a| {
        assert u[j] == a[j] && a[j] in a;
      } else {
        assert u[j] == b[j - |a|] && b[j - |a|] in b;
      }
    }
    NoControls(u);
  }

  lemma SchemeSplit(scheme: string, tail: string)
    requires scheme != [] && forall c :: c in scheme ==> AsciiAlpha(c) && c < 128 as char && c != ':'
    ensures SplitScheme(scheme + ":" + tail) == (Strings.Lower(scheme), tail)
  {
    var u := scheme + ":" + tail;
    IndexAfterScheme(scheme, tail);
    assert u[..|scheme|] == scheme;
    assert u[0] == scheme[0] && scheme[0] in scheme;
    forall j | 0 <= j < |scheme| ensures SchemeChar(u[j]) {
      assert u[j] == scheme[j] && scheme[j] in scheme;
    }
    assert HasSchemePrefix(u);
    assert u[|scheme| + 1..] == tail;
  }

  lemma NetlocSplit(host: string, rest: string)
    requires forall c :: c in host ==> c !in "/?#[]"
    requires rest == [] || rest[0] in "/?#"
    ensures SplitNetloc("//" + host + rest) == Ok((host, rest))
  {
    var tail := "//" + host + rest;
    NetlocEndAt(tail, host, rest);
    assert HasAuthority(tail);
    assert tail[2..2 + |host|] == host;
    assert tail[2 + |host|..] == rest;
    assert '[' !in host && ']' !in host;
    assert CheckBrackets(host) == Ok(());
  }

  lemma SchemeLetters(s: string)
    requires HttpScheme(s)
    ensures |s| >= 4 && forall c :: c in s ==> AsciiAlpha(c) && c < 128 as char && c != ':' && !C0OrSpace(c)
  {
    forall c | c in s ensures AsciiAlpha(c) && c < 128 as char {
      var j :| 0 <= j < |s| && s[j] == c;
      assert Strings.Lower(s)[j] == Strings.LowerChar(c);
    }
  }

  lemma {:induction false} NoControls(u: string)
    requires forall j :: 0 <= j < |u| ==> !C0OrSpace(u[j])
    ensures Cleaned(u) == u
  {
    NoUnsafe(u);
  }

  lemma {:induction false} NoUnsafe(u: string)
    requires forall j :: 0 <= j < |u| ==> !C0OrSpace(u[j])
    ensures RemoveUnsafe(u) == u
  {
    if u != [] {
      NoUnsafe(u[1..]);
      assert u == [u[0]] + u[1..];
    }
  }

  lemma {:induction false} IndexAfterScheme(s: string, tail: string)
    requires forall c :: c in s ==> c != ':'
    ensures IndexOf(s + ":" + tail, ':') == |s|
  {
    if s != [] {
      assert s[0] in s;
      assert forall c :: c in s[1..] ==> c in s;
      IndexAfterScheme(s[1..], tail);
      assert (s + ":" + tail)[1..] == s[1..] + ":" + tail;
    }
  }

  lemma NetlocEndAt(after: string, host: string, rest: string)
    requires after == "//" + host + rest
    requires forall c :: c in host ==> c !in "/?#"
    requires rest == [] || rest[0] in "/?#"
    ensures NetlocEnd(after, 2) == 2 + |host|
  {
    var e := NetlocEnd(after, 2);
    forall j | 2 <= j < 2 + |host| ensures after[j] !in "/?#" {
      assert after[j] == host[j - 2];
      assert host[j - 2] in host;
    }
    if rest != [] {
      assert after[2 + |host|] == rest[0];
    }
  }

  // ----- save_config -----

  /** The two documents `save_config` hands to the TOML writer. */
  datatype SavedFiles = SavedFiles(settings: Value, secrets: Value)

  /** `{"default": data.get("default", {})}` */
  function DefaultOnly(data: seq<(string, Value)>): Value {
    var section := match Get(data, "default") case Some(v) => v case None => Dict([]);
    Dict([("default", section)])
  }

  /** `ConfigManager.save_config`: each file gets its own input's default section and nothing else. */
  function SaveConfig(configData: seq<(string, Value)>, secretsData: seq<(string, Value)>): (r: SavedFiles)
    ensures r.settings.Dict? && Keys(r.settings.entries) == ["default"]
    ensures r.secrets.Dict? && Keys(r.secrets.entries) == ["default"]
    ensures Get(configData, "default").Some? ==> r.settings.entries[0].1 == Get(configData, "default").value
    ensures Get(configData, "default").None? ==> r.settings.entries[0].1 == Dict([])
    ensures Get(secretsData, "default").Some? ==> r.secrets.entries[0].1 == Get(secretsData, "default").value
    ensures Get(secretsData, "default").None? ==> r.secrets.entries[0].1 == Dict([])
  {
    SavedFiles(DefaultOnly(configData), DefaultOnly(secretsData))
  }

  /** The settings file depends on `config_data` alone, the secrets file on `secrets_data` alone. */
  lemma SaveConfigSeparatesFiles(c1: seq<(string, Value)>, c2: seq<(string, Value)>, s1: seq<(string, Value)>, s2: seq<(string, Value)>)
    ensures SaveConfig(c1, s1).settings == SaveConfig(c1, s2).settings
    ensures SaveConfig(c1, s1).secrets == SaveConfig(c2, s1).secrets
  {
  }

  /** Top-level keys other than `default` are discarded: adding or changing one changes nothing saved. */
  lemma SaveConfigIgnoresOtherSections(c: seq<(string, Value)>, s: seq<(string, Value)>, k: string, v: Value)
    requires k != "default"
    ensures SaveConfig(Set(c, k, v), s) == SaveConfig(c, s)
    ensures SaveConfig(c, Set(s, k, v)) == SaveConfig(c, s)
  {
    SetGet(c, k, v, "default");
    SetGet(s, k, v, "default");
  }

  // ----- rejected shapes -----

  /** No `//` after the scheme means an empty netloc, so the URL is rejected. */
  lemma RejectsMissingAuthority(scheme: string, rest: string)
    requires scheme != [] && forall c :: c in scheme ==> AsciiAlpha(c) && c < 128 as char
    requires forall c :: c in rest ==> !C0OrSpace(c)
    requires !HasAuthority(rest)
    ensures !IsValidUrl(Str(scheme + ":" + rest))
  {
    SchemeColon(scheme, rest);
    NoAuthorityInvalid(scheme + ":" + rest, Strings.Lower(scheme), rest);
  }

  /** A letter scheme, a colon and text without controls: nothing is cleaned and the scheme splits off. */
  lemma SchemeColon(scheme: string, rest: string)
    requires scheme != [] && forall c :: c in scheme ==> AsciiAlpha(c) && c < 128 as char
    requires forall c :: c in rest ==> !C0OrSpace(c)
    ensures Cleaned(scheme + ":" + rest) == scheme + ":" + rest
    ensures SplitScheme(scheme + ":" + rest) == (Strings.Lower(scheme), rest)
  {
    SchemeSplit(scheme, rest);
    CleanConcat(scheme + ":", rest);
  }

  /** Without `//` after the scheme the netloc is empty, which fails the check whatever the scheme. */
  lemma NoAuthorityInvalid(u: string, scheme: string, tail: string)
    requires Cleaned(u) == u && SplitScheme(u) == (scheme, tail)
    requires !HasAuthority(tail)
    ensures !IsValidUrl(Str(u))
  {
    ParsedAfterScheme(u, scheme, tail);
  }

  /** A scheme other than http or https is rejected, whatever follows it. */
  lemma RejectsOtherScheme(scheme: string, rest: string)
    requires scheme != [] && forall c :: c in scheme ==> AsciiAlpha(c) && c < 128 as char
    requires !HttpScheme(scheme)
    requires forall c :: c in rest ==> !C0OrSpace(c)
    ensures !IsValidUrl(Str(scheme + ":" + rest))
  {
    var u := scheme + ":" + rest;
    SchemeColon(scheme, rest);
    ParsedAfterScheme(u, Strings.Lower(scheme), rest);
  }

  /** Once cleaning leaves the text alone and the scheme is split off, urlparse is the netloc split of the tail. */
  lemma ParsedAfterScheme(u: string, scheme: string, tail: string)
    requires Cleaned(u) == u && SplitScheme(u) == (scheme, tail)
    ensures SplitNetloc(tail).Err? ==> UrlParse(u).Err?
    ensures SplitNetloc(tail).Ok? ==>
      UrlParse(u) == Ok(ParsedUrl(scheme, SplitNetloc(tail).value.0, SplitNetloc(tail).value.1))
  {
  }

  /** A `[` without a matching `]` in the netloc makes urlparse raise, and the check answers false. */
  lemma RejectsUnclosedBracket(scheme: string, host: string, rest: string)
    requires scheme != [] && forall c :: c in scheme ==> AsciiAlpha(c) && c < 128 as char
    requires '[' in host && ']' !in host && forall c :: c in host ==> c !in "/?#" && !C0OrSpace(c)
    requires forall c :: c in rest ==> !C0OrSpace(c)
    requires rest == [] || rest[0] in "/?#"
    ensures UrlParse(scheme + "://" + host + rest).Err?
    ensures !IsValidUrl(Str(scheme + "://" + host + rest))
  {
    var tail := "//" + host + rest;
    assert scheme + "://" + host + rest == scheme + ":" + tail;
    assert forall c :: c in tail ==> c in "//" || c in host || c in rest;
    NetlocUnclosed(host, rest);
    SchemeColon(scheme, tail);
    NetlocErrorInvalid(scheme + ":" + tail, Strings.Lower(scheme), tail);
  }

  /** When the netloc split raises, so does urlparse, and the check answers false. */
  lemma NetlocErrorInvalid(u: string, scheme: string, tail: string)
    requires Cleaned(u) == u && SplitScheme(u) == (scheme, tail)
    requires SplitNetloc(tail).Err?
    ensures UrlParse(u).Err? && !IsValidUrl(Str(u))
  {
    ParsedAfterScheme(u, scheme, tail);
  }

  lemma NetlocUnclosed(host: string, rest: string)
    requires '[' in host && ']' !in host && forall c :: c in host ==> c !in "/?#"
    requires rest == [] || rest[0] in "/?#"
    ensures SplitNetloc("//" + host + rest).Err?
  {
    var tail := "//" + host + rest;
    NetlocEndAt(tail, host, rest);
    assert HasAuthority(tail);
    assert tail[2..2 + |host|] == host;
    assert CheckBrackets(host) == Err(InvalidIPv6);
  }

  // ----- concrete cases -----

  lemma HttpsIsHttpScheme()
    ensures HttpScheme("https") && HttpScheme("HTTP")
    ensures !HttpScheme("ftp")
  {
    assert Strings.Lower("https") == "https";
    assert Strings.Lower("HTTP") == "http";
    assert |Strings.Lower("ftp")| == 3;
  }

  // The examples below keep each URL as the concatenation of its parts, which
  // is the same string; written as one literal, the solver would evaluate
  // the whole parse on it character by character.

  lemma OpenAiUrlAccepted()
    ensures IsValidUrl(Str("https" + "://" + "api.openai.com" + "/v1"))
  {
    HttpsIsHttpScheme();
    AcceptsHttpUrl("https", "api.openai.com", "/v1");
  }

  /** urlparse lower-cases the scheme, so an upper-case `HTTP` passes. */
  lemma UpperCaseSchemeAccepted()
    ensures IsValidUrl(Str("HTTP" + "://" + "localhost:11434"))
  {
    HttpsIsHttpScheme();
    AcceptsHttpUrl("HTTP", "localhost:11434", "");
    assert "HTTP" + "://" + "localhost:11434" + "" == "HTTP" + "://" + "localhost:11434";
  }

  lemma OpaqueFormRejected()
    ensures !IsValidUrl(Str("http" + ":" + "example.com"))
  {
    assert !HasAuthority("example.com");
    RejectsMissingAuthority("http", "example.com");
  }

  lemma FtpRejected()
    ensures !IsValidUrl(Str("ftp" + ":" + "//example.com"))
  {
    HttpsIsHttpScheme();
    RejectsOtherScheme("ftp", "//example.com");
  }

  lemma UnclosedIPv6Rejected()
    ensures !IsValidUrl(Str("http" + "://" + "[::1"))
  {
    assert '[' in "[::1" && ']' !in "[::1";
    RejectsUnclosedBracket("http", "[::1", "");
    assert "http" + "://" + "[::1" + "" == "http" + "://" + "[::1";
  }
}
