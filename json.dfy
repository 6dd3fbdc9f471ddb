/**
 * The values `json.loads` produces, and the two JSON oracles. Decoding and encoding are
 * Python's `json` module; the model passes them in as functions and never parses JSON itself.
 */
module JsonValues {
  import opened Wrappers
  import opened Text

  /** A decoded JSON value. An object keeps its members in insertion order, as a Python `dict`
      built by `json.loads` does; a float keeps the text Python's `repr` gives it. */
  datatype Json =
    | JNull
    | JBool(b: bool)
    | JInt(i: int)
    | JFloat(repr: string)
    | JStr(s: string)
    | JArr(items: seq<Json>)
    | JObj(fields: seq<(string, Json)>)

  /** `json.loads(s)` (Ok, or the message of the JSONDecodeError) and `json.dumps(v, ensure_ascii=False)`. */
  datatype Codec = Codec(decode: string -> Result<Json>, dump: Json -> string)

  /** Python truthiness of a decoded value: what `not v` tests. */
  predicate Truthy(v: Json) {
    match v
    case JNull => false
    case JBool(b) => b
    case JInt(i) => i != 0
    case JFloat(r) => r != "0.0" && r != "-0.0"
    case JStr(s) => s != ""
    case JArr(xs) => xs != []
    case JObj(fs) => fs != []
  }

  /** `type(v).__name__`. */
  function TypeName(v: Json): string {
    match v
    case JNull => "NoneType"
    case JBool(_) => "bool"
    case JInt(_) => "int"
    case JFloat(_) => "float"
    case JStr(_) => "str"
    case JArr(_) => "list"
    case JObj(_) => "dict"
  }

  /** The value a `dict.get(key)` returns: the member's value, or None when it is absent. */
  function Get(fields: seq<(string, Json)>, key: string): (r: Json)
    ensures (forall i :: 0 <= i < |fields| ==> fields[i].0 != key) ==> r == JNull
    ensures forall i ::
              (0 <= i < |fields| && fields[i].0 == key && forall j :: 0 <= j < i ==> fields[j].0 != key)
              ==> r == fields[i].1
  {
    if fields == [] then JNull
    else if fields[0].0 == key then fields[0].1
    else Get(fields[1..], key)
  }

  /** `str(v)`, as an f-string interpolates it. */
  function PyStr(v: Json): string {
    match v
    case JStr(s) => s
    case _ => PyRepr(v)
  }

  /** `repr(v)`; strings are quoted with single quotes and not escaped. */
  function PyRepr(v: Json): string {
    match v
    case JNull => "None"
    case JBool(b) => if b then "True" else "False"
    case JInt(i) => IntToString(i)
    case JFloat(r) => r
    case JStr(s) => "'" + s + "'"
    case JArr(xs) => "[" + Join(seq(|xs|, k requires 0 <= k < |xs| => PyRepr(xs[k])), ", ") + "]"
    case JObj(fs) =>
      "{" + Join(seq(|fs|, k requires 0 <= k < |fs| => "'" + fs[k].0 + "': " + PyRepr(fs[k].1)), ", ") + "}"
  }
  /** `json.loads(s)` inside `try ... except json.JSONDecodeError: return None`. */
  function TryLoads(codec: Codec, s: string): Option<Json> {
    match codec.decode(s)
    case Ok(v) => Some(v)
    case Err(_) => None
  }
}
