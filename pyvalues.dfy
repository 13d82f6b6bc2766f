/**
 * Decoded JSON values as the Python code sees them (dicts, lists, strings,
 * numbers), the exceptions the core raises or catches, and the semantics of
 * the subscript `v[k]` on such values, which decides which exception a
 * malformed payload raises.
 */
module PyValues {
  import opened Wrappers
  import opened PyStrings

  /**
   * A value produced by `json.loads`. Object keys are strings; a float is
   * kept as its literal text, since float arithmetic is not modelled.
   */
  datatype Json =
    | JNull
    | JBool(b: bool)
    | JInt(i: int)
    | JFloat(literal: string)
    | JStr(s: string)
    | JList(items: seq<Json>)
    | JDict(fields: map<string, Json>)

  /** A subscript: a string key (`v["entry"]`) or a list position (`v[0]`). */
  datatype Key = Name(name: string) | Position(n: nat)

  /** The Python exceptions the core raises, catches or maps to a response. */
  datatype PyError =
    | KeyError(key: Key)
    | IndexError(message: string)
    | TypeError(message: string)
    | ValueError(message: string)
    | OverflowError(message: string)
    | AttributeError(message: string)
    | IntegrityError(constraint: string)
    | RequestException(message: string)
    | JsonDecodeError(message: string)
    | ValidationError(model: string, field: string)

  function TypeName(v: Json): string {
    match v
    case JNull => "NoneType"
    case JBool(_) => "bool"
    case JInt(_) => "int"
    case JFloat(_) => "float"
    case JStr(_) => "str"
    case JList(_) => "list"
    case JDict(_) => "dict"
  }

  /**
   * `v[k]` in Python. A dict raises KeyError for a missing key, and also for
   * a position, since decoded JSON objects only have string keys; a list or
   * a string raises IndexError past its end and TypeError for a string key;
   * any other value is not subscriptable.
   */
  function Subscript(v: Json, k: Key): (r: Result<Json, PyError>)
    ensures r.Err? && r.error.KeyError? <==> v.JDict? && !(k.Name? && k.name in v.fields)
    ensures r.Err? && r.error.IndexError? <==> k.Position? && (v.JList? || v.JStr?)
                                               && k.n >= (if v.JList? then |v.items| else |v.s|)
    ensures r.Ok? && v.JDict? ==> k.Name? && k.name in v.fields && r.value == v.fields[k.name]
    ensures r.Ok? && v.JList? ==> k.Position? && k.n < |v.items| && r.value == v.items[k.n]
  {
    match v
    case JDict(m) =>
      if k.Name? && k.name in m then Ok(m[k.name]) else Err(KeyError(k))
    case JList(items) =>
      if k.Name? then Err(TypeError("list indices must be integers or slices, not str"))
      else if k.n < |items| then Ok(items[k.n])
      else Err(IndexError("list index out of range"))
    case JStr(s) =>
      if k.Name? then Err(TypeError("string indices must be integers, not 'str'"))
      else if k.n < |s| then Ok(JStr([s[k.n]]))
      else Err(IndexError("string index out of range"))
    case _ =>
      Err(TypeError("'" + TypeName(v) + "' object is not subscriptable"))
  }

  /** `str(e)`: the text an exception carries (a KeyError shows the repr of its key). */
  function ExceptionText(e: PyError): string {
    match e
    case KeyError(Name(k)) => "'" + k + "'"
    case KeyError(Position(n)) => DecimalString(n)
    case IndexError(m) => m
    case TypeError(m) => m
    case ValueError(m) => m
    case OverflowError(m) => m
    case AttributeError(m) => m
    case IntegrityError(c) => c
    case RequestException(m) => m
    case JsonDecodeError(m) => m
    case ValidationError(model, field) => "1 validation error for " + model + "\n" + field
  }

  /**
   * `v.get(key, default)`: a dict gives the value under the key, or the
   * default when the key is missing; no other decoded value has `get`.
   */
  function Get(v: Json, key: string, default: Json): (r: Result<Json, PyError>)
    ensures r.Ok? <==> v.JDict?
    ensures v.JDict? && key in v.fields ==> r == Ok(v.fields[key])
    ensures v.JDict? && key !in v.fields ==> r == Ok(default)
    ensures r.Err? ==> r.error == AttributeError("'" + TypeName(v) + "' object has no attribute 'get'")
  {
    match v
    case JDict(m) => Ok(if key in m then m[key] else default)
    case _ => Err(AttributeError("'" + TypeName(v) + "' object has no attribute 'get'"))
  }
}
