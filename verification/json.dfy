/**
 * The decoded JSON values the gateway handles, with the two Python notions
 * it depends on: truthiness (`if not x`) and hashability (usable as a dict key).
 */
module JsonValue {

  /** A value as Python's `json` module decodes it. */
  datatype Json =
    | Null
    | Bool(b: bool)
    | Int(i: int)
    | Float(f: real)
    | Str(s: string)
    | Arr(items: seq<Json>)
    | Obj(fields: map<string, Json>)

  /** Python's `bool(x)`: None, False, 0, 0.0, "", [] and {} are false, all else true. */
  predicate Truthy(j: Json) {
    match j
    case Null => false
    case Bool(b) => b
    case Int(i) => i != 0
    case Float(f) => f != 0.0
    case Str(s) => s != ""
    case Arr(items) => items != []
    case Obj(fields) => fields != map[]
  }

  /** The seven falsy decoded values, listed independently of `Truthy`. */
  const FalsyValues: set<Json> := {Null, Bool(false), Int(0), Float(0.0), Str(""), Arr([]), Obj(map[])}

  /** A value is falsy exactly when it is one of the listed empty or zero values. */
  lemma TruthyIffNotFalsyValue(j: Json)
    ensures !Truthy(j) <==> j in FalsyValues
  {
  }

  /** Python's `dict.get(key)`: the member's value, or None when the key is absent. */
  function Get(fields: map<string, Json>, key: string): Json {
    if key in fields then fields[key] else Null
  }

  /** Lists and dicts cannot be dict keys; every other decoded value can. */
  predicate Hashable(j: Json) {
    !j.Arr? && !j.Obj?
  }

  /** The name Python gives the value's type in exception messages. */
  function TypeName(j: Json): string {
    match j
    case Null => "NoneType"
    case Bool(_) => "bool"
    case Int(_) => "int"
    case Float(_) => "float"
    case Str(_) => "str"
    case Arr(_) => "list"
    case Obj(_) => "dict"
  }
}
