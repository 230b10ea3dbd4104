/** An abstract JSON value (serde_json::Value without floating point) and the file system it is stored in. */
module Json {
  import opened Wrappers

  datatype Value =
    | Null
    | Bool(b: bool)
    | Number(n: int)
    | Str(s: string)
    | Array(elems: seq<Value>)
    | Object(fields: map<string, Value>)

  /** `Value::get(key)`: the member of an object, and nothing for any other value. */
  function Get(v: Value, key: string): (r: Option<Value>)
    ensures r.Some? <==> v.Object? && key in v.fields
    ensures r.Some? ==> r.value == v.fields[key]
  {
    match v
    case Object(fields) => if key in fields then Some(fields[key]) else None
    case _ => None
  }
}

/** Paths and the file system, kept abstract: a path is its list of components. */
module Files {
  import Json

  type Path = seq<string>

  /** `PathBuf::join` of one relative component. */
  function Join(p: Path, component: string): (r: Path)
    ensures |r| == |p| + 1 && r[..|p|] == p && r[|p|] == component
  {
    p + [component]
  }

  /** What a file holds: a parsed JSON document, or text that serde_json rejects. */
  datatype Content = Text(value: Json.Value) | Unparseable

  type FileSystem = map<Path, Content>
}
