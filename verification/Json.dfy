/** JSON payloads as Python sees them after `json.loads`. */
module Json {
  import opened Wrappers

  datatype Value =
    | Null
    | Bool(b: bool)
    | Num(n: int)
    | Real(r: real)
    | Str(s: string)
    | Arr(items: seq<Value>)
    | Obj(fields: map<string, Value>)

  /** The library conversions of values that are not already of the wanted kind: `str(v)`,
      `int(v)` (None where it raises), and the lower-cased count map, whose result on keys
      equal up to case depends on the order of the dictionary. */
  datatype Library = Library(text: Value -> string, number: Value -> Option<int>,
                             foldCounts: Value -> map<string, Value>)

  function Truthy(v: Value): bool
  {
    match v
    case Null => false
    case Bool(b) => b
    case Num(n) => n != 0
    case Real(r) => r != 0.0
    case Str(s) => s != ""
    case Arr(items) => items != []
    case Obj(fields) => fields != map[]
  }

  /** `v.get(key, default)` for an object. */
  function GetOr(v: Value, key: string, default: Value): Value
  {
    if v.Obj? && key in v.fields then v.fields[key] else default
  }

  function Get(v: Value, key: string): Value
  {
    GetOr(v, key, Null)
  }

  function Or(v: Value, default: Value): Value
  {
    if Truthy(v) then v else default
  }

  function TextOf(v: Value, lib: Library): string
  {
    if v.Str? then v.s else lib.text(v)
  }

  /** `_to_int`: the default for None and for what `int` rejects. */
  function ToInt(v: Value, default: int, lib: Library): int
  {
    if v.Null? then default
    else if v.Num? then v.n
    else
      var n := lib.number(v);
      if n.Some? then n.value else default
  }
}
