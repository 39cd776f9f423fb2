/** Parsed JSON values as both the Python services and the browser client see them. */
module Json {
  import opened Wrappers

  /** An object keeps its keys in document order; a parsed object holds each key once. */
  datatype Json =
    | JNull
    | JBool(b: bool)
    | JNum(n: real)
    | JStr(s: string)
    | JArray(items: seq<Json>)
    | JObject(fields: seq<(string, Json)>)

  predicate HasKey(fields: seq<(string, Json)>, key: string) {
    exists i :: 0 <= i < |fields| && fields[i].0 == key
  }

  /**
   * The value stored under `key`: `key in d and d[key]` in Python, `o[key]` in
   * JavaScript. Parsing keeps the last of duplicate keys, so a parsed object
   * holds each key once, and the first match found here is the only one.
   */
  function Get(fields: seq<(string, Json)>, key: string): (r: Option<Json>)
    ensures r.Some? <==> HasKey(fields, key)
    ensures r.Some? ==> exists i :: 0 <= i < |fields| && fields[i] == (key, r.value)
  {
    if fields == [] then None
    else if fields[0].0 == key then Some(fields[0].1)
    else
      var r := Get(fields[1..], key);
      assert r.Some? ==> exists i :: 0 <= i < |fields[1..]| && fields[1..][i] == (key, r.value);
      assert HasKey(fields[1..], key) ==> exists i :: 0 < i < |fields| && fields[i].0 == key;
      r
  }
}
