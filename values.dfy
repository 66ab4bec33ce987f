/**
 * Dynamic data as the CLI sees it: decoded JSON bodies, the dictionaries that
 * Dynaconf and pydantic's `model_dump` hand around, and the payloads written
 * as TOML. Python dictionaries keep insertion order, so a dictionary is an
 * ordered list of entries; the helpers below give it Python's `get`,
 * item assignment and `pop` semantics.
 */
module Values {

  datatype Option<+T> = None | Some(value: T)

  datatype Result<+T, +E> = Ok(value: T) | Err(error: E) {
    predicate IsFailure() {
      Err?
    }

    function PropagateFailure<U>(): Result<U, E>
      requires Err?
    {
      Err(error)
    }

    function Extract(): T
      requires Ok?
    {
      value
    }
  }

  /** A JSON/TOML/Python value (floating-point numbers are not modelled). */
  datatype Value =
    | Null
    | Bool(b: bool)
    | Int(i: int)
    | Str(s: string)
    | List(items: seq<Value>)
    | Dict(entries: seq<(string, Value)>)

  /** Python's truth value of a decoded value (`bool(v)`). */
  predicate Truthy(v: Value)
    ensures !Truthy(v) <==> v in {Null, Bool(false), Int(0), Str(""), List([]), Dict([])}
  {
    match v
    case Null => false
    case Bool(b) => b
    case Int(i) => i != 0
    case Str(s) => s != ""
    case List(xs) => xs != []
    case Dict(es) => es != []
  }

  /** Python's truth value of an optional string: present and non-empty. */
  predicate Filled(s: Option<string>) {
    s.Some? && s.value != ""
  }

  // ----- ordered dictionaries -----

  function Keys<V>(d: seq<(string, V)>): (ks: seq<string>)
    ensures |ks| == |d|
    ensures forall i :: 0 <= i < |d| ==> ks[i] == d[i].0
  {
    seq(|d|, i requires 0 <= i < |d| => d[i].0)
  }

  /** Python dictionaries never hold a key twice. */
  predicate DistinctKeys<V>(d: seq<(string, V)>) {
    forall i, j :: 0 <= i < j < |d| ==> d[i].0 != d[j].0
  }

  /** `d.get(k)`: the value stored under `k`, if any. */
  function Get<V>(d: seq<(string, V)>, k: string): (r: Option<V>)
    ensures r.Some? <==> k in Keys(d)
  {
    if d == [] then None
    else if d[0].0 == k then Some(d[0].1)
    else Get(d[1..], k)
  }

  /** `d[k] = v`: overwrite the entry for `k` in place, or append a new one. */
  function Set<V>(d: seq<(string, V)>, k: string, v: V): (r: seq<(string, V)>)
  {
    if d == [] then [(k, v)]
    else if d[0].0 == k then [(k, v)] + d[1..]
    else [d[0]] + Set(d[1..], k, v)
  }

  /** `d.pop(k, None)`: drop the entry for `k`, keeping the order of the rest. */
  function Pop<V>(d: seq<(string, V)>, k: string): (r: seq<(string, V)>)
  {
    if d == [] then []
    else if d[0].0 == k then Pop(d[1..], k)
    else [d[0]] + Pop(d[1..], k)
  }

  lemma {:induction false} GetAt<V>(d: seq<(string, V)>, i: nat)
    requires DistinctKeys(d) && i < |d|
    ensures Get(d, d[i].0) == Some(d[i].1)
  {
    if i > 0 {
      GetAt(d[1..], i - 1);
    }
  }

  /** `d.get(k)` finds the first entry with key `k`. */
  lemma {:induction false} GetFirst<V>(d: seq<(string, V)>, i: nat, k: string)
    requires i < |d| && d[i].0 == k
    requires forall j :: 0 <= j < i ==> d[j].0 != k
    ensures Get(d, k) == Some(d[i].1)
  {
    if i > 0 {
      GetFirst(d[1..], i - 1, k);
    }
  }

  lemma {:induction false} SetGet<V>(d: seq<(string, V)>, k: string, v: V, k': string)
    ensures Get(Set(d, k, v), k') == if k' == k then Some(v) else Get(d, k')
  {
    if d != [] && d[0].0 != k {
      SetGet(d[1..], k, v, k');
    }
  }

  /** Assignment keeps the key order: an existing key stays in place, a new one goes last. */
  lemma {:induction false} SetKeys<V>(d: seq<(string, V)>, k: string, v: V)
    ensures Keys(Set(d, k, v)) == if k in Keys(d) then Keys(d) else Keys(d) + [k]
  {
    if d != [] && d[0].0 != k {
      SetKeys(d[1..], k, v);
      assert Keys(d) == [d[0].0] + Keys(d[1..]);
      assert Keys(Set(d, k, v)) == [d[0].0] + Keys(Set(d[1..], k, v));
    } else if d != [] {
      assert Keys(Set(d, k, v)) == [k] + Keys(d[1..]);
      assert Keys(d) == [k] + Keys(d[1..]);
    }
  }

  lemma {:induction false} SetDistinct<V>(d: seq<(string, V)>, k: string, v: V)
    requires DistinctKeys(d)
    ensures DistinctKeys(Set(d, k, v))
  {
    var r := Set(d, k, v);
    SetKeys(d, k, v);
    forall i, j | 0 <= i < j < |r| ensures r[i].0 != r[j].0 {
      assert Keys(r)[i] == r[i].0 && Keys(r)[j] == r[j].0;
      if k !in Keys(d) && j == |d| {
        assert r[i].0 == Keys(d)[i];
      } else {
        assert Keys(r)[i] == Keys(d)[i] && Keys(r)[j] == Keys(d)[j];
      }
    }
  }

  lemma {:induction false} PopGet<V>(d: seq<(string, V)>, k: string, k': string)
    ensures Get(Pop(d, k), k') == if k' == k then None else Get(d, k')
  {
    if d != [] {
      PopGet(d[1..], k, k');
    }
  }

  // ----- Python's str() -----

  function DecimalDigits(n: nat): (r: string)
    decreases n
  {
    var digit := "0123456789"[n % 10];
    if n < 10 then [digit] else DecimalDigits(n / 10) + [digit]
  }

  /** `str(i)` for a Python int. */
  function IntToString(i: int): string {
    if i < 0 then "-" + DecimalDigits(-i) else DecimalDigits(i)
  }

  /** `str(v)`: a string is itself, anything else is its `repr`. */
  function PyStr(v: Value): (r: string)
    ensures v.Str? ==> r == v.s
    ensures Truthy(v) ==> r != ""
  {
    if v.Str? then v.s else PyRepr(v)
  }

  /** `repr(v)`; strings are shown in single quotes without escaping. */
  function PyRepr(v: Value): (r: string)
    ensures r != ""
    decreases v, if v.Dict? then |v.entries| + 1 else 0
  {
    match v
    case Null => "None"
    case Bool(b) => if b then "True" else "False"
    case Int(i) => IntToString(i)
    case Str(s) => "'" + s + "'"
    case List(xs) => "[" + ReprItems(xs) + "]"
    case Dict(_) => "{" + ReprFields(v, 0) + "}"
  }

  function ReprItems(xs: seq<Value>): string
    decreases xs
  {
    if xs == [] then ""
    else PyRepr(xs[0]) + (if |xs| == 1 then "" else ", " + ReprItems(xs[1..]))
  }

  function ReprFields(d: Value, i: nat): string
    requires d.Dict? && i <= |d.entries|
    decreases d, |d.entries| - i
  {
    if i == |d.entries| then ""
    else
      var e := d.entries[i];
      assert e in d.entries;
      (if i == 0 then "" else ", ") + "'" + e.0 + "': " + PyRepr(e.1) + ReprFields(d, i + 1)
  }
}
