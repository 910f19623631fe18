/** The decoded JSON values stored in the payload columns and read back with `json.loads`. */
module Json {

  datatype Json =
    | JNull
    | JBool(b: bool)
    | JInt(n: int)
    | JStr(s: string)
    | JList(items: seq<Json>)
    | JObj(fields: map<string, Json>)

  /** `d.get(key, default)` on a Python dict. */
  function Get(fields: map<string, Json>, key: string, default: Json): (r: Json)
    ensures key in fields ==> r == fields[key]
    ensures key !in fields ==> r == default
  {
    if key in fields then fields[key] else default
  }

  /** `get(key, "")`, the lookup every payload reader uses. */
  function GetStr(fields: map<string, Json>, key: string): (r: Json)
    ensures key !in fields ==> r == JStr("")
  {
    Get(fields, key, JStr(""))
  }

  /** Python truthiness of a decoded JSON value (`if ps:`). */
  predicate Truthy(j: Json)
  {
    match j
    case JNull => false
    case JBool(b) => b
    case JInt(n) => n != 0
    case JStr(s) => s != ""
    case JList(items) => items != []
    case JObj(fields) => fields != map[]
  }

  /** The Python type name of a decoded JSON value, as it appears in an AttributeError. */
  function TypeName(j: Json): string
  {
    match j
    case JNull => "NoneType"
    case JBool(_) => "bool"
    case JInt(_) => "int"
    case JStr(_) => "str"
    case JList(_) => "list"
    case JObj(_) => "dict"
  }

  /** The text of the AttributeError raised by calling `.get` on a value that is not a dict. */
  function NoGetMessage(j: Json): string
  {
    "'" + TypeName(j) + "' object has no attribute 'get'"
  }
}
