/**
 * The part of `nlohmann::json` the configuration and the rules rely on: a
 * value tree, key lookup, string conversion and range-for iteration.
 * An object's members are kept in iteration order (nlohmann orders them by key).
 * A document is taken to arrive in that order, with each key once; the
 * datatype itself does not enforce it.
 */
module Json {
  import opened Basics

  datatype Json =
    | Null
    | Bool(b: bool)
    | Number(n: int)
    | Str(s: string)
    | Array(elems: seq<Json>)
    | Object(members: seq<(string, Json)>)

  /** Index of the first member named `k`, or -1. */
  function KeyIndex(ms: seq<(string, Json)>, k: string): (r: int)
    ensures -1 <= r < |ms|
    ensures r >= 0 ==> ms[r].0 == k && forall j :: 0 <= j < r ==> ms[j].0 != k
    ensures r == -1 <==> forall j :: 0 <= j < |ms| ==> ms[j].0 != k
  {
    if ms == [] then -1
    else if ms[0].0 == k then 0
    else
      var r := KeyIndex(ms[1..], k);
      if r == -1 then -1 else r + 1
  }

  /** `v.contains(k)`: false for every value that is not an object. */
  predicate Contains(v: Json, k: string)
  {
    v.Object? && KeyIndex(v.members, k) >= 0
  }

  /** `v[k]` on a const value known to contain `k`. */
  function Get(v: Json, k: string): (r: Json)
    requires Contains(v, k)
    ensures r < v
    ensures exists i :: 0 <= i < |v.members| && v.members[i] == (k, r)
  {
    var i := KeyIndex(v.members, k);
    assert v.members[i] == (k, v.members[i].1);
    v.members[i].1
  }

  /** `v.get<std::string>()` and the implicit conversion to `std::string`: `None` is the `type_error`. */
  function AsString(v: Json): (r: Option<string>)
    ensures r.Some? <==> v.Str?
    ensures v.Str? ==> r == Some(v.s)
  {
    if v.Str? then Some(v.s) else None
  }

  /**
   * What `for (auto& x : v)` visits: the elements of an array, the values of
   * an object in order, nothing for null, and a primitive value itself, once.
   */
  function Items(v: Json): (r: seq<Json>)
    ensures v.Array? ==> r == v.elems
    ensures v.Object? ==> |r| == |v.members| && forall k :: 0 <= k < |r| ==> r[k] == v.members[k].1
    ensures v.Null? ==> r == []
    ensures (v.Bool? || v.Number? || v.Str?) ==> r == [v]
  {
    match v
    case Null => []
    case Array(es) => es
    case Object(ms) => seq(|ms|, k requires 0 <= k < |ms| => ms[k].1)
    case _ => [v]
  }
}
