/**
 * The few pieces of JavaScript semantics the configuration resolver and the
 * page components rely on: JSON values, truthiness, `a || b` on strings,
 * object spread on a single field, and `Array.prototype.find`.
 */
module Js {
  import opened Wrappers

  /** A JSON value as the remote configuration endpoint delivers it. */
  datatype JsonValue =
    | JNull
    | JBool(b: bool)
    | JNumber(n: real)
    | JString(s: string)
    | JArray(items: seq<JsonValue>)
    | JObject(fields: map<string, JsonValue>)

  /** JavaScript truthiness of a JSON value. Arrays and objects are truthy even when empty. */
  predicate Truthy(v: JsonValue) {
    match v
    case JNull => false
    case JBool(b) => b
    case JNumber(n) => n != 0.0
    case JString(s) => s != ""
    case JArray(_) => true
    case JObject(_) => true
  }

  /**
   * `remote || fallback` for an optional string: a missing or empty remote
   * string gives the fallback.
   */
  function OrElse(remote: Option<string>, fallback: string): (r: string)
    ensures r == fallback || (remote == Some(r) && r != "")
    ensures remote.Some? && remote.value != "" ==> r == remote.value
  {
    if remote.Some? && remote.value != "" then remote.value else fallback
  }

  /**
   * The value one field takes in `{ ...fallback, ...remote }`: a remote field
   * that is present wins, even when it is empty.
   */
  function Spread<T>(remote: Option<T>, fallback: T): (r: T)
    ensures remote.Some? ==> r == remote.value
    ensures remote.None? ==> r == fallback
  {
    remote.GetOr(fallback)
  }

  /**
   * `r` is what `{ ...fallback, ...remote }` gives one field: the remote value
   * when the remote record has the field, the fallback's when it omits it.
   */
  ghost predicate FieldOverlaid<T>(r: T, remote: Option<T>, fallback: T) {
    (remote.Some? ==> r == remote.value) && (remote.None? ==> r == fallback)
  }

  /**
   * The same for a field that is itself optional in the merged record: a
   * present remote value wins, otherwise the fallback's value (or absence) stays.
   */
  function SpreadOptional<T>(remote: Option<T>, fallback: Option<T>): (r: Option<T>)
    ensures remote.Some? ==> r == remote
    ensures remote.None? ==> r == fallback
  {
    if remote.Some? then remote else fallback
  }

  /**
   * The index `find` stops at: the first element satisfying `p`, if any.
   */
  function FindIndex<T>(s: seq<T>, p: T -> bool): (r: Option<nat>)
    ensures r.Some? ==> r.value < |s| && p(s[r.value])
    ensures r.Some? ==> forall j :: 0 <= j < r.value ==> !p(s[j])
    ensures r.None? <==> forall j :: 0 <= j < |s| ==> !p(s[j])
  {
    if |s| == 0 then None
    else if p(s[0]) then Some(0)
    else
      match FindIndex(s[1..], p)
      case None => None
      case Some(k) => Some(k + 1)
  }

  /** An index where `p` holds, with `p` failing everywhere before it, is the one `find` stops at. */
  lemma {:induction false} FindIndexAt<T>(s: seq<T>, p: T -> bool, i: nat)
    requires i < |s| && p(s[i])
    requires forall j :: 0 <= j < i ==> !p(s[j])
    ensures FindIndex(s, p) == Some(i)
  {
    if i > 0 {
      assert !p(s[0]);
      FindIndexAt(s[1..], p, i - 1);
    }
  }
}
