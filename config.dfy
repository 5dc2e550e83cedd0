/**
 * The configuration store (src/config/config_manager.py): one nested JSON
 * document, read through dotted paths such as `server.host`, and searched for
 * the record-store tables and views configured by name.
 */
module Config {
  import opened Wrappers
  import opened Json
  import Text

  /**
   * `reduce(operator.getitem, keys, v)`: index the value with each key in turn.
   * Only a dictionary can be indexed by a string key here; a missing key
   * (KeyError) or a value that is not a dictionary (TypeError) ends the walk with
   * no value.
   */
  function Walk(v: Json, keys: seq<string>): (r: Option<Json>)
    ensures keys == [] ==> r == Some(v)
    ensures keys != [] && !v.JObject? ==> r.None?
    ensures keys != [] && v.JObject? && Member(v.fields, keys[0]).None? ==> r.None?
    decreases |keys|
  {
    if keys == [] then Some(v)
    else
      match v
      case JObject(fields) =>
        (match Member(fields, keys[0])
         case Some(child) => Walk(child, keys[1..])
         case None => None)
      case _ => None
  }

  /** Walking a concatenation of key lists is walking one list, then the other. */
  lemma {:induction false} WalkAppend(v: Json, a: seq<string>, b: seq<string>)
    ensures Walk(v, a + b) == (match Walk(v, a) case Some(u) => Walk(u, b) case None => None)
    decreases |a|
  {
    if a == [] {
      assert a + b == b;
    } else {
      assert (a + b)[0] == a[0];
      assert (a + b)[1..] == a[1..] + b;
      match v
      case JObject(fields) =>
        match Member(fields, a[0]) {
          case Some(child) => WalkAppend(child, a[1..], b);
          case None =>
        }
      case _ =>
    }
  }

  /** `ConfigManager.get(path, default)` on a given document. */
  function GetPath(config: Json, path: string, default: Json): Json
  {
    match Walk(config, Text.Split(path, '.'))
    case Some(v) => v
    case None => default
  }

  /** The value the keys reach one after the other, or the default. */
  function Lookup(v: Json, keys: seq<string>, default: Json): Json
  {
    match Walk(v, keys)
    case Some(u) => u
    case None => default
  }

  /**
   * The dotted path made of keys that contain no dot reaches exactly the value
   * the keys reach one after the other, and gives the default when they do not.
   */
  lemma GetPathOfKeys(config: Json, keys: seq<string>, default: Json)
    requires |keys| > 0
    requires forall i :: 0 <= i < |keys| ==> '.' !in keys[i]
    ensures Walk(config, keys).Some? ==> GetPath(config, Text.Join(keys, '.'), default) == Walk(config, keys).value
    ensures Walk(config, keys).None? ==> GetPath(config, Text.Join(keys, '.'), default) == default
  {
    Text.SplitJoin(keys, '.');
  }

  /** A two-level lookup: `get("a.b")` is `config["a"]["b"]`. */
  lemma GetTwoLevels(config: Json, a: string, b: string, inner: Fields, x: Json, default: Json)
    requires '.' !in a && '.' !in b
    requires config.JObject? && Member(config.fields, a) == Some(JObject(inner))
    requires Member(inner, b) == Some(x)
    ensures GetPath(config, a + "." + b, default) == x
  {
    GetPathOfKeys(config, [a, b], default);
    assert Text.Join([a, b], '.') == a + "." + b;
    assert Walk(config, [a, b]) == Walk(JObject(inner), [b]);
    assert [a, b][1..] == [b];
    assert [b][1..] == [];
  }

  /** A JSON value that is an object whose `name` member is the string `target`. */
  predicate HasName(v: Json, target: string)
  {
    v.JObject? && Member(v.fields, "name") == Some(JStr(target))
  }

  /** What searching the values of a dictionary for a name gives. */
  datatype Search = Match(value: Json) | NoMatch | SearchRaises

  /**
   * `for _, info in d.items(): if info.get('name') == target: return info`:
   * the first value named `target`, in document order.  A value that is not a
   * dictionary has no `get`, so reaching one first raises AttributeError.
   */
  function FindNamed(entries: Fields, target: string): (r: Search)
    ensures r.Match? ==> HasName(r.value, target)
  {
    if entries == [] then NoMatch
    else if !entries[0].1.JObject? then SearchRaises
    else if HasName(entries[0].1, target) then Match(entries[0].1)
    else FindNamed(entries[1..], target)
  }

  /** Nothing is found exactly when every value is a dictionary without that name. */
  lemma {:induction false} FindNamedNoMatch(entries: Fields, target: string)
    ensures FindNamed(entries, target).NoMatch? <==>
            forall i :: 0 <= i < |entries| ==> entries[i].1.JObject? && !HasName(entries[i].1, target)
  {
    if entries != [] && entries[0].1.JObject? && !HasName(entries[0].1, target) {
      var tail := entries[1..];
      FindNamedNoMatch(tail, target);
      assert forall i :: 0 < i < |entries| ==> entries[i] == tail[i - 1];
    }
  }

  /** The value found is the first dictionary so named, every value before it a dictionary without the name. */
  lemma {:induction false} FindNamedMatch(entries: Fields, target: string)
    ensures FindNamed(entries, target).Match? ==>
            exists i :: 0 <= i < |entries| && entries[i].1 == FindNamed(entries, target).value &&
                        forall j :: 0 <= j < i ==> entries[j].1.JObject? && !HasName(entries[j].1, target)
  {
    if entries != [] && entries[0].1.JObject? && !HasName(entries[0].1, target) && FindNamed(entries, target).Match? {
      var tail := entries[1..];
      FindNamedMatch(tail, target);
      var i :| 0 <= i < |tail| && tail[i].1 == FindNamed(tail, target).value &&
               forall j :: 0 <= j < i ==> tail[j].1.JObject? && !HasName(tail[j].1, target);
      assert forall j :: 0 < j <= i ==> entries[j] == tail[j - 1];
      assert entries[i + 1] == tail[i];
    }
  }

  /** The search raises only at a value that is not a dictionary, with no value so named before it. */
  lemma {:induction false} FindNamedRaises(entries: Fields, target: string)
    ensures FindNamed(entries, target).SearchRaises? ==>
            exists i :: 0 <= i < |entries| && !entries[i].1.JObject? &&
                        forall j :: 0 <= j < i ==> !HasName(entries[j].1, target)
  {
    if entries != [] && entries[0].1.JObject? && !HasName(entries[0].1, target) && FindNamed(entries, target).SearchRaises? {
      var tail := entries[1..];
      FindNamedRaises(tail, target);
      var i :| 0 <= i < |tail| && !tail[i].1.JObject? && forall j :: 0 <= j < i ==> !HasName(tail[j].1, target);
      assert forall j :: 0 < j <= i ==> entries[j] == tail[j - 1];
      assert entries[i + 1] == tail[i];
    } else if entries != [] && !entries[0].1.JObject? {
      assert !entries[0].1.JObject?;
    }
  }

  /** `d.items()` searched for a name: a value that is not a dictionary has no `items` and raises AttributeError. */
  function FindNamedIn(v: Json, target: string): Search
  {
    match v
    case JObject(entries) => FindNamed(entries, target)
    case _ => SearchRaises
  }

  /** The document `_load_config` yields: the parsed file, or `{}` when it is missing or unreadable. */
  function Loaded(file: Option<Json>): Json
  {
    match file
    case Some(doc) => doc
    case None => JObject([])
  }

  /** Where the record-store tables are configured. */
  const TablesPath: string := "nocodb.tables"

  class ConfigManager {
    var config: Json

    /** Reading the file is left to the caller: `file` is its parsed content, if any. */
    constructor (file: Option<Json>)
      ensures config == Loaded(file)
    {
      config := Loaded(file);
    }

    /** `get(path, default=None)`. */
    function Get(path: string, default: Json := JNull): (r: Json)
      reads this
      ensures Walk(config, Text.Split(path, '.')).None? ==> r == default
      ensures Walk(config, Text.Split(path, '.')).Some? ==> r == Walk(config, Text.Split(path, '.')).value
    {
      GetPath(config, path, default)
    }

    /** Reading a dotted path made of dot-free keys is looking the keys up one after the other. */
    lemma GetByKeys(keys: seq<string>, default: Json)
      requires |keys| > 0
      requires forall i :: 0 <= i < |keys| ==> '.' !in keys[i]
      ensures Get(Text.Join(keys, '.'), default) == Lookup(config, keys, default)
    {
      GetPathOfKeys(config, keys, default);
    }

    /** `set_all(c)`: every later read sees `c`. */
    method SetAll(newConfig: Json)
      modifies this
      ensures config == newConfig
      ensures forall path, default :: Get(path, default) == GetPath(newConfig, path, default)
    {
      config := newConfig;
    }

    /** `reload()`, with the file's parsed content given. */
    method Reload(file: Option<Json>)
      modifies this
      ensures config == Loaded(file)
    {
      config := Loaded(file);
    }

    /**
     * `get_nocodb_table_by_name`: the first table under `nocodb.tables` with
     * that name; a `nocodb.tables` that is not a dictionary raises.
     */
    function TableByName(target: string): (r: Search)
      reads this
      ensures r.Match? ==> HasName(r.value, target)
      ensures var tables := Get(TablesPath, JObject([]));
              tables.JObject? ==> r == FindNamed(tables.fields, target)
      ensures var tables := Get(TablesPath, JObject([]));
              tables.JObject? ==> (r.NoMatch? <==> forall i :: 0 <= i < |tables.fields| ==> tables.fields[i].1.JObject? && !HasName(tables.fields[i].1, target))
      ensures var tables := Get(TablesPath, JObject([]));
              tables.JObject? && r.SearchRaises? ==> exists i :: 0 <= i < |tables.fields| && !tables.fields[i].1.JObject?
      ensures !Get(TablesPath, JObject([])).JObject? ==> r.SearchRaises?
    {
      var tables := Get(TablesPath, JObject([]));
      if tables.JObject? then
        FindNamedNoMatch(tables.fields, target);
        FindNamedRaises(tables.fields, target);
        FindNamed(tables.fields, target)
      else SearchRaises
    }

    /**
     * `get_nocodb_view_by_name`: nothing for an empty table info, else the
     * first view with that name; a table info or a `views` that is not a
     * dictionary raises.
     */
    static function ViewByName(tableInfo: Json, target: string): (r: Search)
      ensures !Truthy(tableInfo) ==> r.NoMatch?
      ensures Truthy(tableInfo) && !tableInfo.JObject? ==> r.SearchRaises?
      ensures r.Match? ==> HasName(r.value, target)
      ensures Truthy(tableInfo) && tableInfo.JObject? ==>
                r == FindNamedIn(DictGet(tableInfo.fields, "views", JObject([])), target)
    {
      if !Truthy(tableInfo) then NoMatch
      else
        match tableInfo
        case JObject(fields) => FindNamedIn(DictGet(fields, "views", JObject([])), target)
        case _ => SearchRaises
    }
  }
}
