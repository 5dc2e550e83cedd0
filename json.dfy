/**
 * JSON values as the station reads them from its configuration file, its local
 * database files and the record store.  A JSON object keeps its members in
 * document order (the source iterates `dict.items()`), so it is an association
 * list; in a loaded document every key occurs once, so the first member with a
 * key is the dictionary's entry for it.
 */
module Json {
  import opened Wrappers

  datatype Json =
    | JNull
    | JBool(b: bool)
    | JNum(n: int)
    | JStr(s: string)
    | JArray(items: seq<Json>)
    | JObject(fields: seq<(string, Json)>)

  /** The members of one JSON object. */
  type Fields = seq<(string, Json)>

  /** `d[key]` on a dictionary: the value of the first member named `key` (`MemberFirst`). */
  function Member(fields: Fields, key: string): Option<Json>
  {
    if fields == [] then None
    else if fields[0].0 == key then Some(fields[0].1)
    else Member(fields[1..], key)
  }

  /** The key is absent exactly when no member has it; otherwise the value is that of its first member. */
  lemma {:induction false} MemberFirst(fields: Fields, key: string)
    ensures Member(fields, key).None? <==> forall i :: 0 <= i < |fields| ==> fields[i].0 != key
    ensures Member(fields, key).Some? ==>
              exists i :: 0 <= i < |fields| && fields[i] == (key, Member(fields, key).value) &&
                          forall j :: 0 <= j < i ==> fields[j].0 != key
  {
    if fields != [] && fields[0].0 != key {
      MemberFirst(fields[1..], key);
      var r := Member(fields[1..], key);
      if r.Some? {
        var i :| 0 <= i < |fields| - 1 && fields[1..][i] == (key, r.value) &&
                 forall j :: 0 <= j < i ==> fields[1..][j].0 != key;
        assert fields[i + 1] == (key, r.value);
        assert forall j :: 1 <= j < i + 1 ==> fields[j].0 == fields[1..][j - 1].0;
      } else {
        assert forall i :: 1 <= i < |fields| ==> fields[i] == fields[1..][i - 1];
      }
    } else if fields != [] {
      assert fields[0] == (key, Member(fields, key).value);
    }
  }

  /** `d.get(key, default)`: the member's value, or `default` when the key is absent. */
  function DictGet(fields: Fields, key: string, default: Json := JNull): Json
  {
    match Member(fields, key)
    case Some(v) => v
    case None => default
  }

  /** Python's truth value of a JSON value (`if x:`). */
  predicate Truthy(v: Json)
  {
    match v
    case JNull => false
    case JBool(b) => b
    case JNum(n) => n != 0
    case JStr(s) => s != []
    case JArray(items) => items != []
    case JObject(fields) => fields != []
  }
}
