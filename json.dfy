/** The decoded JSON documents exchanged with the plug, as value trees. */
module JsonValue {
  import opened Base

  /** A JSON value as `json.loads` returns it and `json.dumps` accepts it
      (numbers are integers only). */
  datatype Value =
    | Null
    | Bool(b: bool)
    | Num(n: int)
    | Str(s: string)
    | Arr(items: seq<Value>)
    | Obj(fields: map<string, Value>)

  /** Python's `v[key]` for a string key: a dictionary gives its entry or raises
      `KeyError`; any other value raises `TypeError`. */
  function Get(v: Value, key: string): Result<Value> {
    match v
    case Obj(m) => if key in m then Ok(m[key]) else Err(KeyError(key))
    case _ => Err(TypeError)
  }

  /** Python's chained subscription `v[path[0]][path[1]]...`, stopping at the
      first exception. */
  function GetPath(v: Value, path: seq<string>): (r: Result<Value>)
    ensures path == [] ==> r == Ok(v)
    ensures path != [] && !v.Obj? ==> r == Err(TypeError)
    ensures r.Err? ==> r.error.KeyError? || r.error.TypeError?
    decreases |path|
  {
    if path == [] then Ok(v)
    else
      match Get(v, path[0])
      case Err(e) => Err(e)
      case Ok(w) => GetPath(w, path[1..])
  }

  /** The tree that holds `leaf` under the single chain of keys `path`. */
  function Nest(path: seq<string>, leaf: Value): Value
    decreases |path|
  {
    if path == [] then leaf else Obj(map[path[0] := Nest(path[1..], leaf)])
  }

  /** Looking up a path through a tree built along that path yields the leaf. */
  lemma {:induction false} GetPathNest(path: seq<string>, leaf: Value)
    ensures GetPath(Nest(path, leaf), path) == Ok(leaf)
    decreases |path|
  {
    if path != [] {
      GetPathNest(path[1..], leaf);
    }
  }
}
