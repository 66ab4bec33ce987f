/**
 * The part of JMESPath that the provider settings use: a sub-expression
 * chain of unquoted identifiers (`data`, `result.models`). Each identifier
 * selects a key of an object; selecting from a non-object, or a key that is
 * not there, yields null, and null propagates. An expression that is not a
 * well-formed chain is a parse error, which the library raises as
 * `JMESPathError`.
 */
module JmesPath {
  import opened Values

  datatype PathError = EmptySegment(position: nat) | InvalidIdentifier(segment: string)

  predicate IdentStart(c: char) {
    ('A' <= c <= 'Z') || ('a' <= c <= 'z') || c == '_'
  }

  predicate IdentChar(c: char) {
    IdentStart(c) || ('0' <= c <= '9')
  }

  /** JMESPath's `unquoted-string` production. */
  predicate IsIdentifier(s: string) {
    s != [] && IdentStart(s[0]) && forall i :: 1 <= i < |s| ==> IdentChar(s[i])
  }

  /** The pieces of `s` between dots (`"a.b"` gives `["a", "b"]`, `""` gives `[""]`). */
  function SplitDots(s: string): (parts: seq<string>)
    ensures |parts| >= 1
    decreases |s|
  {
    if s == [] then [""]
    else
      var rest := SplitDots(s[1..]);
      if s[0] == '.' then [""] + rest else [[s[0]] + rest[0]] + rest[1..]
  }

  function JoinDots(parts: seq<string>): string
    requires |parts| >= 1
  {
    if |parts| == 1 then parts[0] else parts[0] + "." + JoinDots(parts[1..])
  }

  lemma {:induction false} JoinSplit(s: string)
    ensures JoinDots(SplitDots(s)) == s
    decreases |s|
  {
    if s != [] {
      JoinSplit(s[1..]);
      assert s == [s[0]] + s[1..];
    }
  }

  /** Splitting a dotted chain of dot-free segments gives the segments back. */
  lemma {:induction false} SplitJoin(parts: seq<string>)
    requires |parts| >= 1
    requires forall i :: 0 <= i < |parts| ==> '.' !in parts[i]
    ensures SplitDots(JoinDots(parts)) == parts
    decreases |parts|, |parts[0]|
  {
    if parts[0] == [] {
      if |parts| > 1 {
        SplitJoin(parts[1..]);
        assert JoinDots(parts) == [] + "." + JoinDots(parts[1..]);
        SplitDotsCons('.', JoinDots(parts[1..]));
        assert parts == [""] + parts[1..];
      }
    } else {
      var p0 := parts[0];
      var tail := [p0[1..]] + parts[1..];
      forall i | 0 <= i < |tail| ensures '.' !in tail[i] {
        if i == 0 { assert forall c :: c in p0[1..] ==> c in p0; } else { assert tail[i] == parts[i]; }
      }
      SplitJoin(tail);
      JoinDotsHead(parts);
      assert p0[0] in p0;
      SplitDotsCons(p0[0], JoinDots(tail));
      assert [p0[0]] + p0[1..] == p0;
      assert tail[1..] == parts[1..];
    }
  }

  lemma SplitDotsCons(c: char, s: string)
    ensures SplitDots([c] + s) == if c == '.' then [""] + SplitDots(s) else [[c] + SplitDots(s)[0]] + SplitDots(s)[1..]
  {
    assert ([c] + s)[1..] == s;
  }

  /** Joining, the first character of the first segment comes first. */
  lemma JoinDotsHead(parts: seq<string>)
    requires |parts| >= 1 && parts[0] != []
    ensures JoinDots(parts) == [parts[0][0]] + JoinDots([parts[0][1..]] + parts[1..])
  {
    var p0 := parts[0];
    assert p0 == [p0[0]] + p0[1..];
    if |parts| == 1 {
      assert [p0[1..]] + parts[1..] == [p0[1..]];
    } else {
      JoinDotsHeadOfMany(parts);
    }
  }

  lemma JoinDotsHeadOfMany(parts: seq<string>)
    requires |parts| >= 2 && parts[0] != []
    ensures JoinDots(parts) == [parts[0][0]] + JoinDots([parts[0][1..]] + parts[1..])
  {
    var p0 := parts[0];
    var tail := [p0[1..]] + parts[1..];
    assert tail[1..] == parts[1..];
    ConsAssoc(p0[0], p0[1..], "." + JoinDots(parts[1..]));
    assert p0 == [p0[0]] + p0[1..];
  }

  lemma ConsAssoc(c: char, t: string, r: string)
    ensures ([c] + t) + r == [c] + (t + r)
  {
  }

  function CheckSegments(parts: seq<string>, offset: nat): (r: Result<seq<string>, PathError>)
    ensures r.Ok? <==> forall i :: 0 <= i < |parts| ==> IsIdentifier(parts[i])
    ensures r.Ok? ==> r.value == parts
  {
    if parts == [] then Ok([])
    else if parts[0] == [] then Err(EmptySegment(offset))
    else if !IsIdentifier(parts[0]) then Err(InvalidIdentifier(parts[0]))
    else
      match CheckSegments(parts[1..], offset + |parts[0]| + 1)
      case Ok(rest) => Ok([parts[0]] + rest)
      case Err(e) => Err(e)
  }

  /** Compile an expression; an empty expression, `a..b` or `a.` are errors. */
  function Compile(expr: string): (r: Result<seq<string>, PathError>)
    ensures r.Ok? <==> forall i :: 0 <= i < |SplitDots(expr)| ==> IsIdentifier(SplitDots(expr)[i])
    ensures r.Ok? ==> |r.value| >= 1 && JoinDots(r.value) == expr
  {
    var r := CheckSegments(SplitDots(expr), 0);
    JoinSplit(expr);
    r
  }

  /** Evaluate a compiled chain against a value. */
  function Walk(path: seq<string>, v: Value): (r: Value)
    ensures path == [] ==> r == v
    ensures path != [] && !v.Dict? ==> r == Null
    ensures path != [] && v.Dict? && Get(v.entries, path[0]).None? ==> r == Null
    ensures path != [] && v.Dict? && Get(v.entries, path[0]).Some? ==> r == Walk(path[1..], Get(v.entries, path[0]).value)
  {
    if path == [] then v
    else match v
      case Dict(es) =>
        (match Get(es, path[0])
         case Some(child) => Walk(path[1..], child)
         case None => Null)
      case _ => Null
  }

  /** `jmespath.search(expr, v)` */
  function Search(expr: string, v: Value): (r: Result<Value, PathError>)
    ensures r.Err? <==> Compile(expr).Err?
    ensures r.Err? ==> r.error == Compile(expr).error
    ensures r.Ok? && !v.Dict? ==> r.value == Null
  {
    match Compile(expr)
    case Ok(path) => Ok(Walk(path, v))
    case Err(e) => Err(e)
  }

  lemma IdentifierHasNoDot(s: string)
    requires IsIdentifier(s)
    ensures '.' !in s
  {
  }

  /** A single identifier is a plain key lookup, null when the key is absent or `v` is no object. */
  lemma SearchKey(key: string, v: Value)
    requires IsIdentifier(key)
    ensures Search(key, v) == Ok(if v.Dict? && Get(v.entries, key).Some? then Get(v.entries, key).value else Null)
  {
    IdentifierHasNoDot(key);
    SplitJoin([key]);
    assert SplitDots(key) == [key];
    assert Compile(key) == Ok([key]);
    if v.Dict? && Get(v.entries, key).Some? {
      assert Walk([key], v) == Walk([], Get(v.entries, key).value);
    }
  }

  /** `a.b` selects `b` from what `a` selects. */
  lemma {:induction false} SearchChain(key: string, rest: string, v: Value)
    requires IsIdentifier(key)
    requires Compile(rest).Ok?
    ensures Search(key + "." + rest, v) == Search(rest, Walk([key], v))
  {
    var tail := Compile(rest).value;
    var parts := [key] + tail;
    assert JoinDots(parts) == key + "." + rest;
    forall i | 0 <= i < |parts| ensures '.' !in parts[i] && IsIdentifier(parts[i]) {
      if i > 0 {
        assert IsIdentifier(SplitDots(rest)[i - 1]);
      }
      IdentifierHasNoDot(parts[i]);
    }
    SplitJoin(parts);
    assert SplitDots(key + "." + rest) == parts;
    assert Compile(key + "." + rest) == Ok(parts);
    match v {
      case Dict(es) =>
      case _ =>
        assert Walk([key], v) == Null;
        assert Walk(tail, Null) == Null;
    }
  }
}
