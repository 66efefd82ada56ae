/**
  The JavaScript values that `JSON.parse` can produce, with the few pieces of
  JavaScript semantics the analysis pipeline relies on: truthiness (`x || ""`),
  `Array.isArray` and property reads such as `result.analysis`.
 */
module Json {
  import opened Wrappers

  /** A parsed JSON value. Numbers are kept as reals: only whether a number is zero matters here. */
  datatype Json =
    | JNull
    | JBool(b: bool)
    | JNum(n: real)
    | JStr(s: string)
    | JArr(items: seq<Json>)
    | JObj(fields: map<string, Json>)

  /**
    JavaScript's ToBoolean on a value that may be `undefined` (`None`):
    `undefined`, `null`, `false`, `0` and `""` are falsy; every array and
    every object, even an empty one, is truthy.
   */
  predicate Truthy(v: Option<Json>) {
    match v
    case None => false
    case Some(JNull) => false
    case Some(JBool(b)) => b
    case Some(JNum(n)) => n != 0.0
    case Some(JStr(s)) => s != ""
    case Some(JArr(_)) => true
    case Some(JObj(_)) => true
  }

  /** `Array.isArray(v)`. */
  predicate IsArray(v: Option<Json>) {
    v.Some? && v.value.JArr?
  }

  /**
    The property read `j[key]` for a key that is not a built-in property name.
    Reading a property of `null` throws a TypeError, hence the precondition;
    on a string, number, boolean or array such a key is `undefined`.
   */
  function Get(j: Json, key: string): Option<Json>
    requires !j.JNull?
  {
    if j.JObj? && key in j.fields then Some(j.fields[key]) else None
  }

  /** Every element is a string. */
  predicate AllStrings(items: seq<Json>) {
    forall i :: 0 <= i < |items| ==> items[i].JStr?
  }

  /** The two maps hold the same entries for every key in `keys` (present in both with one value, or absent from both). */
  predicate AgreeOn(m1: map<string, Json>, m2: map<string, Json>, keys: set<string>) {
    forall k :: k in keys ==> (k in m1 <==> k in m2) && (k in m1 ==> m1[k] == m2[k])
  }
}
