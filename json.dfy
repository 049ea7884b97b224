/** JSON values as they arrive in a tool call's argument bag, and the two
    JavaScript operations the argument validator applies to them: `typeof`
    and property access. */
module Json {

  datatype Option<+T> = None | Some(value: T)

  /** A JSON value. Numbers are kept as reals; the validator never looks at them. */
  datatype Value =
    | JNull
    | JBool(b: bool)
    | JNumber(n: real)
    | JString(s: string)
    | JArray(items: seq<Value>)
    | JObject(fields: map<string, Value>)

  /** A JavaScript slot that may hold a JSON value or be `undefined` (None). */
  type Slot = Option<Value>

  /** JavaScript's `typeof` on a slot. `null` and arrays report "object". */
  function TypeOf(v: Slot): (t: string)
    ensures t == "undefined" <==> v.None?
    ensures t == "object" <==> v.Some? && (v.value.JNull? || v.value.JArray? || v.value.JObject?)
    ensures t == "string" <==> v.Some? && v.value.JString?
    ensures t == "number" <==> v.Some? && v.value.JNumber?
    ensures t == "boolean" <==> v.Some? && v.value.JBool?
  {
    match v
    case None => "undefined"
    case Some(JNull) => "object"
    case Some(JBool(_)) => "boolean"
    case Some(JNumber(_)) => "number"
    case Some(JString(_)) => "string"
    case Some(JArray(_)) => "object"
    case Some(JObject(_)) => "object"
  }

  /** JavaScript's property access `v.key` on a JSON value. It throws on
      `undefined` and `null`, hence the precondition; on an object it yields
      the own field or `undefined`; any other value has no such property. */
  function Member(v: Slot, key: string): (r: Slot)
    requires v.Some? && !v.value.JNull?
    ensures r.Some? <==> v.value.JObject? && key in v.value.fields
    ensures r.Some? ==> r.value == v.value.fields[key]
  {
    match v.value
    case JObject(fields) => if key in fields then Some(fields[key]) else None
    case _ => None
  }
}
