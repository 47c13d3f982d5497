/** JSON values as the client sees them after parsing, and Python-style subscripting. */
module JsonValues {
  import opened Wrappers

  /** A parsed JSON document. Objects are dictionaries from key to value. */
  datatype Json =
    | JNull
    | JBool(b: bool)
    | JNumber(n: int)
    | JString(s: string)
    | JArray(items: seq<Json>)
    | JObject(fields: map<string, Json>)

  /** Why a chain of subscripts failed. `NotAnObject(at)`: the value reached by
      following `at` is not a dictionary (Python raises TypeError).
      `KeyMissing(at)`: the dictionary reached by following all but the last key
      of `at` lacks that last key (Python raises KeyError). */
  datatype LookupError =
    | NotAnObject(at: seq<string>)
    | KeyMissing(at: seq<string>)

  /** The value `v[key]`, where `v` is the value found at path `at`. */
  function Subscript(v: Json, at: seq<string>, key: string): (r: Result<Json, LookupError>)
    ensures r.Ok? <==> v.JObject? && key in v.fields
    ensures r.Ok? ==> r.value == v.fields[key]
    ensures !v.JObject? ==> r == Err(NotAnObject(at))
    ensures v.JObject? && key !in v.fields ==> r == Err(KeyMissing(at + [key]))
  {
    match v
    case JObject(fields) =>
      if key in fields then Ok(fields[key]) else Err(KeyMissing(at + [key]))
    case _ => Err(NotAnObject(at))
  }

  /** `v[path[0]][path[1]]...`, evaluated innermost subscript first, as Python
      evaluates `resp["status"]["code"]`. A failure names a point on the path. */
  function LookupPath(v: Json, path: seq<string>): (r: Result<Json, LookupError>)
    decreases |path|
    ensures path == [] ==> r == Ok(v)
    ensures r.Err? && r.error.NotAnObject? ==> r.error.at < path
    ensures r.Err? && r.error.KeyMissing? ==> r.error.at != [] && r.error.at <= path
  {
    if path == [] then Ok(v)
    else
      var parent := path[..|path| - 1];
      match LookupPath(v, parent)
      case Err(e) => Err(e)
      case Ok(w) =>
        assert path == parent + [path[|path| - 1]];
        Subscript(w, parent, path[|path| - 1])
  }

  /** A two-key path is two subscripts in a row; the first failure wins. */
  lemma {:induction false} LookupTwoKeys(v: Json, outer: string, inner: string)
    ensures LookupPath(v, [outer, inner]) ==
      match Subscript(v, [], outer)
      case Err(e) => Err(e)
      case Ok(w) => Subscript(w, [outer], inner)
  {
    assert [outer, inner][..1] == [outer];
    assert [outer][..0] == [];
  }

  /** A one-key path is a single subscript. */
  lemma {:induction false} LookupOneKey(v: Json, key: string)
    ensures LookupPath(v, [key]) == Subscript(v, [], key)
  {
    assert [key][..0] == [];
  }
}
