/**
 * The Python values that travel through the orchestration core: whatever
 * `json.loads` can produce, plus the codec functions the core calls but
 * whose internals are not part of this model.
 */
module JsonValues {
  import opened Wrappers
  import opened PyDict

  datatype Json =
    | JNull
    | JBool(b: bool)
    | JInt(i: int)
    | JFloat(f: real)
    | JStr(s: string)
    | JArr(items: seq<Json>)
    | JObj(fields: Dict<string, Json>)

  /**
   * The opaque library functions: `json.loads` (None when it raises
   * `JSONDecodeError`), `json.dumps`, `json.dumps(..., indent=2)` of a
   * snapshot field, and `float()` applied to a string (None when it raises).
   */
  datatype Codec = Codec(
    decode: string -> Option<Json>,
    encode: Json -> string,
    encodeIndented: Dict<Json, Json> -> string,
    parseFloat: string -> Option<real>)

  /** `type(j).__name__` for the Python object `j` decodes to. */
  function TypeName(j: Json): string {
    match j
    case JNull => "NoneType"
    case JBool(_) => "bool"
    case JInt(_) => "int"
    case JFloat(_) => "float"
    case JStr(_) => "str"
    case JArr(_) => "list"
    case JObj(_) => "dict"
  }

  /** Lists and dicts cannot be dictionary keys. */
  predicate Hashable(j: Json) {
    !j.JArr? && !j.JObj?
  }

  /** The text of the `AttributeError` raised by `j.<attribute>` on an object lacking it. */
  function NoAttribute(j: Json, attribute: string): string {
    "'" + TypeName(j) + "' object has no attribute '" + attribute + "'"
  }

  /** The text of the `TypeError` raised when `j` is used as a dictionary key. */
  function Unhashable(j: Json): string {
    "unhashable type: '" + TypeName(j) + "'"
  }

  /** `{"error": message}`, the shape of every error the core reports as a value. */
  function ErrorObject(message: string): (r: Json)
    ensures r.JObj? && Keys(r.fields) == ["error"]
    ensures Get(r.fields, "error") == Some(JStr(message))
  {
    JObj([("error", JStr(message))])
  }
}
