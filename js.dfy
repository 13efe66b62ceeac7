/** The JavaScript values the honeypot's rules inspect, JavaScript truthiness
    (the ToBoolean conversion behind `if (x)`, `&&` and `.some(Boolean)`),
    and property access with optional chaining. */
module Js {

  datatype Option<T> = None | Some(value: T)

  /** The outcome of evaluating an expression that may throw. */
  datatype Completion<T> = Normal(value: T) | Threw(error: string)

  /** A JavaScript value. Plain objects are maps from property names to
      values; arrays are sequences. `NaN` is kept apart from the other
      numbers because it is falsy. */
  datatype Value =
    | Undefined
    | Null
    | Bool(b: bool)
    | Num(x: real)
    | NaN
    | Str(s: string)
    | Arr(items: seq<Value>)
    | Obj(fields: map<string, Value>)

  /** ToBoolean. */
  predicate Truthy(v: Value) {
    match v
    case Undefined => false
    case Null => false
    case Bool(b) => b
    case Num(x) => x != 0.0
    case NaN => false
    case Str(s) => s != ""
    case Arr(_) => true
    case Obj(_) => true
  }

  /** The six falsy values, listed rather than computed. */
  const FALSY: seq<Value> := [Undefined, Null, Bool(false), Num(0.0), NaN, Str("")]

  lemma TruthyIffNotFalsy(v: Value)
    ensures Truthy(v) <==> v !in FALSY
  {
  }

  /** `v?.[key]` for a property name that is neither an array index nor a
      built-in property: it reads an own field of a plain object and is
      `undefined` for every other value (for `undefined` and `null` because
      of the optional chaining). */
  function Get(v: Value, key: string): Value
  {
    match v
    case Obj(fields) => Field(fields, key)
    case _ => Undefined
  }

  /** `o[key]` on a plain object given by its own fields. */
  function Field(fields: map<string, Value>, key: string): Value {
    if key in fields then fields[key] else Undefined
  }

  /** A possibly absent string as a JavaScript value. */
  function OfOption(o: Option<string>): (v: Value)
    ensures Truthy(v) <==> o.Some? && o.value != ""
  {
    match o
    case None => Undefined
    case Some(s) => Str(s)
  }

  /** A record of string fields as a plain object. */
  function OfStrings(m: map<string, string>): Value
  {
    Obj(map k | k in m :: Str(m[k]))
  }
}
