/** The Python values a JSON request body decodes to, with the two Python
    behaviours the handlers depend on: truthiness and `dict.get`. */
module PyJson {
  import opened Results

  /** What `json.loads` produces: None, bool, int, float, str, list or dict. */
  datatype Json =
    | Null
    | Bool(b: bool)
    | Int(i: int)
    | Float(f: real)
    | Str(s: string)
    | Array(items: seq<Json>)
    | Object(fields: map<string, Json>)

  /** Python's `bool(v)`: None, False, zero and empty containers are falsy. */
  predicate Truthy(v: Json) {
    match v
    case Null => false
    case Bool(b) => b
    case Int(i) => i != 0
    case Float(f) => f != 0.0
    case Str(s) => |s| > 0
    case Array(items) => |items| > 0
    case Object(fields) => |fields| > 0
  }

  /** Python's `type(v).__name__`. */
  function TypeName(v: Json): string {
    match v
    case Null => "NoneType"
    case Bool(_) => "bool"
    case Int(_) => "int"
    case Float(_) => "float"
    case Str(_) => "str"
    case Array(_) => "list"
    case Object(_) => "dict"
  }

  /** `v.get(key, default)`: a dictionary lookup with a default; on any other
      value the attribute lookup raises `AttributeError`. */
  function GetOr(v: Json, key: string, default: Json): (r: Result<Json>)
    ensures r.Success? <==> v.Object?
    ensures r.Success? ==> (key in v.fields ==> r.value == v.fields[key])
    ensures r.Success? ==> (key !in v.fields ==> r.value == default)
  {
    match v
    case Object(fields) => Success(if key in fields then fields[key] else default)
    case _ => Failure("'" + TypeName(v) + "' object has no attribute 'get'")
  }
}
