/**
 * The slice of JavaScript's value universe that the adapter moves around:
 * configuration fields, command payloads, results returned by the vendor
 * client, and the records built for outbound messages.
 */
module JsValues {

  /**
   * A JavaScript value. Numbers are modelled as integers; objects are plain
   * records of own fields (key order is not modelled); `Error` stands for an
   * object built by `new Error(...)` or raised by the engine.
   */
  datatype Value =
    | Undefined
    | Null
    | Bool(b: bool)
    | Num(n: int)
    | Str(s: string)
    | Arr(items: seq<Value>)
    | Obj(fields: map<string, Value>)
    | Error(name: string, message: string)

  /** `null` or `undefined`: the values on which reading a field throws. */
  predicate Nullish(v: Value) {
    v.Undefined? || v.Null?
  }

  /** JavaScript truthiness (`!!v`). */
  predicate Truthy(v: Value) {
    match v
    case Undefined => false
    case Null => false
    case Bool(b) => b
    case Num(n) => n != 0
    case Str(s) => s != ""
    case Arr(_) => true
    case Obj(_) => true
    case Error(_, _) => true
  }

  /**
   * Optional-chaining field read `v?.key`; also `v.key` on a value that is
   * not nullish. A missing field, or a field of a non-object, reads as
   * `undefined`.
   */
  function Get(v: Value, key: string): Value {
    if v.Obj? && key in v.fields then v.fields[key] else Undefined
  }

  /** The TypeError V8 raises for `v.key` when `v` is null or undefined. */
  function ReadError(v: Value, key: string): Value
    requires Nullish(v)
  {
    Error("TypeError", "Cannot read properties of " + (if v.Null? then "null" else "undefined")
      + " (reading '" + key + "')")
  }

  /**
   * The TypeError V8 raises for `const { key } = name` when the variable
   * `name` holds null or undefined.
   */
  function DestructureError(v: Value, key: string, name: string): Value
    requires Nullish(v)
  {
    Error("TypeError", "Cannot destructure property '" + key + "' of '" + name + "' as it is "
      + (if v.Null? then "null" else "undefined") + ".")
  }

  /** The TypeError V8 raises for `delete v.key` when `v` is null or undefined. */
  const DeleteError: Value := Error("TypeError", "Cannot convert undefined or null to object")

  /** The TypeError V8 raises when `name(...)` is called and `name` is undefined. */
  function NotAFunction(name: string): Value {
    Error("TypeError", name + " is not a function")
  }
}
