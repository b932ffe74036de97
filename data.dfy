/**
 * Parsed JSON values and the few Python dict and str operations the integration
 * applies to them. A Python dict is an association list kept in insertion order;
 * a dict built by Python never repeats a key, and lookups take the first match.
 */
module Data {
  import opened Wrappers

  /** A value produced by JSON decoding (integral numbers only). */
  datatype Json =
    | Null
    | Bool(b: bool)
    | Number(n: int)
    | Str(s: string)
    | Array(items: seq<Json>)
    | Object(members: seq<(string, Json)>)

  /** The key set of a dict, `d.keys()` compared as a set. */
  function Keys<V>(d: seq<(string, V)>): (ks: set<string>)
    ensures forall i :: 0 <= i < |d| ==> d[i].0 in ks
    ensures forall k :: k in ks ==> exists i :: 0 <= i < |d| && d[i].0 == k
  {
    set i | 0 <= i < |d| :: d[i].0
  }

  /** `d.get(k)`: the value of the first member with key `k`. */
  function Get<V>(d: seq<(string, V)>, k: string): (r: Option<V>)
    ensures r.None? <==> k !in Keys(d)
    ensures r.Some? ==> exists i :: 0 <= i < |d| && d[i] == (k, r.value) && forall j :: 0 <= j < i ==> d[j].0 != k
  {
    if d == [] then None
    else if d[0].0 == k then Some(d[0].1)
    else Get(d[1..], k)
  }

  /** Whether Python can hash the value: lists and dicts are unhashable. */
  predicate Hashable(j: Json) {
    !j.Array? && !j.Object?
  }

  /** Python truthiness of a JSON value (`not x` is its negation). */
  predicate Truthy(j: Json) {
    match j
    case Null => false
    case Bool(b) => b
    case Number(n) => n != 0
    case Str(s) => s != ""
    case Array(items) => items != []
    case Object(members) => members != []
  }

  /** Decimal digits of a natural number, most significant first. */
  function NatText(n: nat): (s: string)
    ensures |s| >= 1
    ensures forall i :: 0 <= i < |s| ==> '0' <= s[i] <= '9'
    decreases n
  {
    var d := [(n % 10) as char + '0'];
    if n < 10 then d else NatText(n / 10) + d
  }

  function IntText(n: int): string {
    if n < 0 then "-" + NatText(-n) else NatText(n)
  }

  function Join(parts: seq<string>): string {
    if parts == [] then ""
    else if |parts| == 1 then parts[0]
    else parts[0] + ", " + Join(parts[1..])
  }

  /** Python `repr` of a value, as it appears inside a list or dict rendering. */
  function Repr(j: Json): string
    decreases j, 1
  {
    match j
    case Str(s) => "'" + s + "'"
    case _ => Text(j)
  }

  /** Python `str` of a value, as an f-string renders it. */
  function Text(j: Json): string
    decreases j, 0
  {
    match j
    case Null => "None"
    case Bool(b) => if b then "True" else "False"
    case Number(n) => IntText(n)
    case Str(s) => s
    case Array(items) =>
      "[" + Join(seq(|items|, i requires 0 <= i < |items| => Repr(items[i]))) + "]"
    case Object(members) =>
      "{" + Join(seq(|members|, i requires 0 <= i < |members| =>
        "'" + members[i].0 + "': " + Repr(members[i].1))) + "}"
  }
}
