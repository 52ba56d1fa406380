/**
 * Raw, JSON-like input as the FOX parser receives it (an `unknown` value in
 * the source), with the two JavaScript notions the parser relies on:
 * truthiness and own-property lookup on a plain object.
 */
module RawData {

  datatype Option<T> = None | Some(value: T)

  /** A JavaScript value as it can appear in parsed JSON data. An object is
      the list of its own entries, in the order `Object.entries` yields them. */
  datatype Json =
    | JNull
    | JBool(b: bool)
    | JNum(n: real)
    | JStr(s: string)
    | JArr(items: seq<Json>)
    | JObj(entries: seq<(string, Json)>)

  /** JavaScript truthiness: `null`, `false`, `0` and `""` are falsy, every
      array and object is truthy. */
  predicate Truthy(j: Json) {
    match j
    case JNull => false
    case JBool(b) => b
    case JNum(n) => n != 0.0
    case JStr(s) => s != ""
    case JArr(_) => true
    case JObj(_) => true
  }

  /** `typeof x === 'object'`, which holds of `null` and of arrays as well. */
  predicate IsObjectLike(j: Json) {
    j.JNull? || j.JArr? || j.JObj?
  }

  /** An array whose every element is a string. */
  predicate IsStringArray(j: Json) {
    j.JArr? && forall i | 0 <= i < |j.items| :: j.items[i].JStr?
  }

  /** The strings held by a string array, in order. */
  function Strings(j: Json): (r: seq<string>)
    requires IsStringArray(j)
    ensures |r| == |j.items|
    ensures forall i | 0 <= i < |r| :: j.items[i] == JStr(r[i])
  {
    seq(|j.items|, i requires 0 <= i < |j.items| => j.items[i].s)
  }

  /** `obj.hasOwnProperty(key) ? obj[key] : <absent>`. Should a key occur
      twice, the later entry wins, as with `JSON.parse`. */
  function Get(entries: seq<(string, Json)>, key: string): (r: Option<Json>)
    ensures r.None? <==> forall i | 0 <= i < |entries| :: entries[i].0 != key
    ensures r.Some? ==> exists i | 0 <= i < |entries| ::
                          entries[i] == (key, r.value) &&
                          forall j | i < j < |entries| :: entries[j].0 != key
  {
    if |entries| == 0 then None
    else if entries[|entries| - 1].0 == key then Some(entries[|entries| - 1].1)
    else Get(entries[..|entries| - 1], key)
  }

  /** An entry under another key, wherever it stands, does not change a lookup. */
  lemma {:induction false} GetSkipsOtherKey(front: seq<(string, Json)>, key: string, value: Json,
                                            back: seq<(string, Json)>, other: string)
    requires other != key
    ensures Get(front + [(key, value)] + back, other) == Get(front + back, other)
    decreases |back|
  {
    var all := front + [(key, value)] + back;
    if back == [] {
      assert all[..|all| - 1] == front && front + back == front;
    } else {
      var last := back[|back| - 1];
      var rest := back[..|back| - 1];
      assert all[..|all| - 1] == front + [(key, value)] + rest;
      assert (front + back)[..|front + back| - 1] == front + rest;
      if last.0 != other {
        GetSkipsOtherKey(front, key, value, rest, other);
      }
    }
  }
}
