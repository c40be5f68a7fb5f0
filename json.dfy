/**
 * JSON documents as Python's `json` module hands them back: an object keeps
 * its members in insertion order, as a `dict` does. Numbers keep their
 * literal text, since nothing in this model does arithmetic on them.
 */
module Json {
  import opened Wrappers

  datatype JsonValue =
    | JNull
    | JBool(b: bool)
    | JNumber(literal: string)
    | JString(str: string)
    | JArray(items: seq<JsonValue>)
    | JObject(members: seq<(string, JsonValue)>)

  /**
   * `json.loads` applied to a string: `Some(v)` when the text is a JSON
   * document, `None` where Python raises `JSONDecodeError`. No parser is
   * modelled; every operation that parses takes one of these as a parameter.
   */
  type Parser = string -> Option<JsonValue>

  /** The first member of `ms` whose key is `key`, as `dict.get` finds it. */
  function Find(ms: seq<(string, JsonValue)>, key: string): (r: Option<JsonValue>)
    ensures r.Some? ==> exists i :: 0 <= i < |ms| && ms[i] == (key, r.value)
                                   && forall j :: 0 <= j < i ==> ms[j].0 != key
    ensures r.None? <==> forall i :: 0 <= i < |ms| ==> ms[i].0 != key
    decreases |ms|
  {
    if ms == [] then None
    else if ms[0].0 == key then Some(ms[0].1)
    else
      var r := Find(ms[1..], key);
      if r.Some? then
        ghost var i :| 0 <= i < |ms[1..]| && ms[1..][i] == (key, r.value)
                       && forall j :: 0 <= j < i ==> ms[1..][j].0 != key;
        assert ms[i + 1] == (key, r.value);
        r
      else r
  }

  /** `v.get(key)` on an object; `None` for a missing key or a non-object. */
  function Get(v: JsonValue, key: string): (r: Option<JsonValue>)
    ensures r.Some? ==> v.JObject?
    ensures v.JObject? ==> r == Find(v.members, key)
  {
    if v.JObject? then Find(v.members, key) else None
  }

  /** The keys of an object, in order. */
  function Keys(v: JsonValue): (ks: seq<string>)
    requires v.JObject?
    ensures |ks| == |v.members|
    ensures forall i :: 0 <= i < |ks| ==> ks[i] == v.members[i].0
  {
    seq(|v.members|, i requires 0 <= i < |v.members| => v.members[i].0)
  }
}
