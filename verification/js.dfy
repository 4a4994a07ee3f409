/**
 * The JavaScript values that reach the contact-form code: fields of a parsed JSON
 * body, fields of a JSON reply from a remote service, and configuration strings.
 */
module Js {
  import opened Wrappers

  /**
   * A JavaScript value as far as the intake code can tell values apart.
   * `Undefined` stands for a property that is not there; `Composite` for any
   * object or array (always truthy).
   */
  datatype Value =
    | Undefined
    | Null
    | Bool(b: bool)
    | Num(n: real)
    | Str(s: string)
    | Composite

  /**
   * JavaScript truthiness: `undefined`, `null`, `false`, `0` and `""` are falsy.
   * (NaN cannot come out of JSON, so it is not represented.)
   */
  predicate Truthy(v: Value) {
    match v
    case Undefined => false
    case Null => false
    case Bool(b) => b
    case Num(n) => n != 0.0
    case Str(s) => s != ""
    case Composite => true
  }

  /** Truthiness of an environment variable: unset and empty both read as false. */
  predicate Configured(setting: Option<string>) {
    setting.Some? && setting.value != ""
  }

  /** The property `name` of a JSON object, `undefined` when it is not there. */
  function Get(fields: map<string, Value>, name: string): Value {
    if name in fields then fields[name] else Undefined
  }
}
