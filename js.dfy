/** The slice of JavaScript's value semantics that the chat client's store,
    push bridge and router rely on: values produced by JSON.parse or built by
    the client, property reads, `delete`, truthiness, and the exceptions those
    operations can throw. */
module Js {

  datatype Option<+T> = None | Some(value: T)

  /** A JavaScript value. Numbers are modelled as integers; arrays and strings
      carry no named own properties in this model (see README). */
  datatype Value =
    | Undefined
    | Null
    | Bool(b: bool)
    | Num(n: int)
    | Str(s: string)
    | Arr(elems: seq<Value>)
    | Obj(fields: map<string, Value>)
  {
    /** `null` and `undefined`: the two values whose property access throws. */
    predicate IsNullish() { Undefined? || Null? }
  }

  /** Exceptions the modelled code can raise. */
  datatype JsError = TypeError | ReferenceError | SyntaxError

  /** How a statement sequence ended: normally, or by a thrown exception. */
  datatype Outcome = Done | Threw(error: JsError)

  /** `!!v`: the ECMAScript ToBoolean conversion (NaN is not representable). */
  predicate Truthy(v: Value)
  {
    match v
    case Undefined => false
    case Null => false
    case Bool(b) => b
    case Num(n) => n != 0
    case Str(s) => s != ""
    case Arr(_) => true
    case Obj(_) => true
  }

  /** `v.key`: None when the read throws a TypeError (v is null or undefined),
      otherwise the own property's value, or `undefined` when it is absent. */
  function Member(v: Value, key: string): (r: Option<Value>)
    ensures r.None? <==> v.IsNullish()
    ensures v.Obj? && key in v.fields ==> r == Some(v.fields[key])
    ensures v.Obj? && key !in v.fields ==> r == Some(Undefined)
    ensures !v.Obj? && !v.IsNullish() ==> r == Some(Undefined)
  {
    match v
    case Undefined => None
    case Null => None
    case Obj(f) => Some(if key in f then f[key] else Undefined)
    case _ => Some(Undefined)
  }

  /** `delete v.key` on a value held in a variable: None when it throws a
      TypeError (v is null or undefined), otherwise the value afterwards. */
  function Delete(v: Value, key: string): (r: Option<Value>)
    ensures r.None? <==> v.IsNullish()
    ensures r.Some? ==> (r.value.Obj? <==> v.Obj?)
    ensures v.Obj? && r.Some? ==> r.value.fields.Keys == v.fields.Keys - {key}
    ensures v.Obj? && r.Some? ==>
      forall k :: k in v.fields && k != key ==> r.value.fields[k] == v.fields[k]
    ensures r.Some? && (!v.Obj? || key !in v.fields) ==> r.value == v
  {
    match v
    case Undefined => None
    case Null => None
    case Obj(f) => Some(Obj(f - {key}))
    case _ => Some(v)
  }

  /** Deleting a key does not disturb a read of any other key. */
  lemma DeleteKeepsOtherMembers(v: Value, key: string, other: string)
    requires !v.IsNullish() && other != key
    ensures Delete(v, key).Some?
    ensures Member(Delete(v, key).value, other) == Member(v, other)
  {
  }

  /** After a successful delete, reading the deleted key gives `undefined`. */
  lemma DeleteThenMemberUndefined(v: Value, key: string)
    requires !v.IsNullish()
    ensures Delete(v, key).Some?
    ensures Member(Delete(v, key).value, key) == Some(Undefined)
  {
  }
}
