/** The JavaScript values that flow into attribute objects and render rules,
    with the language's truthiness test and property lookup. */
module JsValue {
  import opened Wrappers

  /** A JavaScript value as it can appear in an attribute object. Numbers are
      modelled as integers. */
  datatype Value = Undefined | Null | Bool(b: bool) | Num(n: int) | Str(s: string)

  /** JavaScript's ToBoolean: `undefined`, `null`, `false`, `0` and `''` are falsy. */
  predicate Truthy(v: Value) {
    match v
    case Undefined => false
    case Null => false
    case Bool(b) => b
    case Num(n) => n != 0
    case Str(s) => s != ""
  }

  /** A string-or-null field read as a JavaScript value. */
  function OrNull(o: Option<string>): (v: Value)
    ensures v.Str? <==> o.Some?
    ensures o.Some? ==> v.s == o.value
    ensures o.None? ==> v == Null
  {
    match o
    case Some(s) => Str(s)
    case None => Null
  }

  /** Property access `obj[key]` on an attribute object: a missing key reads
      as `undefined`. */
  function Prop(obj: map<string, Value>, key: string): (v: Value)
    ensures key in obj ==> v == obj[key]
    ensures key !in obj ==> !Truthy(v)
  {
    if key in obj then obj[key] else Undefined
  }

  /** The expression `a || b`: the left operand when it is truthy, else the right. */
  function Or(a: Value, b: Value): (v: Value)
    ensures Truthy(v) <==> Truthy(a) || Truthy(b)
    ensures Truthy(a) ==> v == a
  {
    if Truthy(a) then a else b
  }
}
