/**
 * Generated JSON values, standing for Newtonsoft's `JToken`: a string, an
 * integer, an object (`JObject`, an ordered list of properties) or an array
 * (`JArray`).
 */
module Values {

  import opened Wrappers

  datatype Value =
    | Str(s: string)
    | Int(n: int)
    | Obj(entries: seq<(string, Value)>)
    | Arr(items: seq<Value>)

  /** The property names of an object, in insertion order. */
  function Keys(entries: seq<(string, Value)>): (r: seq<string>)
    ensures |r| == |entries|
    ensures forall i :: 0 <= i < |entries| ==> r[i] == entries[i].0
  {
    seq(|entries|, i requires 0 <= i < |entries| => entries[i].0)
  }

  /** The position of the first property called `key`, if any. */
  function IndexOf(entries: seq<(string, Value)>, key: string): (r: Option<nat>)
    ensures r.Some? ==> r.value < |entries| && entries[r.value].0 == key
    ensures r.Some? ==> forall j :: 0 <= j < r.value ==> entries[j].0 != key
    ensures r.None? ==> forall j :: 0 <= j < |entries| ==> entries[j].0 != key
  {
    if entries == [] then None
    else if entries[0].0 == key then Some(0)
    else match IndexOf(entries[1..], key)
      case Some(i) => Some(i + 1)
      case None => None
  }

  /** The value of the property called `key`, if any (`JObject[key]`). */
  function Get(entries: seq<(string, Value)>, key: string): (r: Option<Value>)
    ensures r.Some? <==> key in Keys(entries)
  {
    match IndexOf(entries, key)
    case Some(i) => Some(entries[i].1)
    case None => None
  }

  /** No property name occurs twice: the invariant every `JObject` keeps. */
  predicate DistinctKeys(entries: seq<(string, Value)>)
  {
    forall i, j :: 0 <= i < j < |entries| ==> entries[i].0 != entries[j].0
  }

  /**
   * `obj[key] = v`: an existing property keeps its position and takes the new
   * value; a new property is appended at the end.
   */
  function Put(entries: seq<(string, Value)>, key: string, v: Value): (r: seq<(string, Value)>)
    ensures Keys(r) == if key in Keys(entries) then Keys(entries) else Keys(entries) + [key]
    ensures Get(r, key) == Some(v)
    ensures forall k :: k != key ==> Get(r, k) == Get(entries, k)
    ensures DistinctKeys(entries) ==> DistinctKeys(r)
  {
    match IndexOf(entries, key)
    case Some(i) => entries[i := (key, v)]
    case None =>
      assert forall k :: k != key ==> IndexOf(entries + [(key, v)], k) == IndexOf(entries, k) by {
        forall k | k != key { IndexOfAppend(entries, (key, v), k); }
      }
      entries + [(key, v)]
  }

  /** Appending a property called something else does not move the first `k`. */
  lemma {:induction false} IndexOfAppend(entries: seq<(string, Value)>, e: (string, Value), k: string)
    requires e.0 != k
    ensures IndexOf(entries + [e], k) == IndexOf(entries, k)
  {
    if entries != [] {
      assert (entries + [e])[1..] == entries[1..] + [e];
      IndexOfAppend(entries[1..], e, k);
    }
  }
}
