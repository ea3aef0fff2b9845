/** The generic document tree that an unstructured resource holds: the values a JSON or YAML
    decoder produces, and objects as maps from field names to values. */
module Values {

  datatype Option<+T> = None | Some(value: T)

  /** One node of a decoded document. */
  datatype Value =
    | VObject(fields: map<string, Value>)
    | VList(items: seq<Value>)
    | VString(s: string)
    | VInt(i: int)
    | VBool(b: bool)
    | VNull

  /** An object: one level of named fields. */
  type Object = map<string, Value>

  /** The field `key` of `obj`, as a lookup in a decoded document reads it: absent (nil) both when
      the object does not define the key and when it defines it as null. */
  function Field(obj: Object, key: string): Option<Value>
  {
    if key in obj && !obj[key].VNull? then Some(obj[key]) else None
  }

  /** The checked cast of a value to an object: the map inside, or nothing for a scalar or a list. */
  function AsObject(v: Value): (r: Option<Object>)
    ensures r.Some? <==> v.VObject?
    ensures r.Some? ==> VObject(r.value) == v
  {
    match v
    case VObject(fields) => Some(fields)
    case _ => None
  }
}
