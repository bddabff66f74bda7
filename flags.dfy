/** The value coercions done by the global-flag callbacks. */
module Flags {
  import opened Js

  /** The `colors` callback's `value !== false`: colours stay on unless the value is the
      boolean false, so unlike `!!value` an undefined, null, 0 or empty value keeps them. */
  function ColorsEnabled(value: JsValue): (on: bool)
    ensures Truthy(value) ==> on
    ensures on && !Truthy(value) <==> value in {Undefined, Null, Num(0), Str("")}
  {
    value != Bool(false)
  }

  /** `!!value`, the boolean the `quiet`, `prompt` and `progress-bars` callbacks store into
      `config.cli`: always a boolean, true exactly for truthy values, and a fixed point. */
  function StoredFlag(value: JsValue): (r: JsValue)
    ensures r.Bool? && (r.b <==> Truthy(value))
    ensures value.Bool? ==> r == value
  {
    Bool(Truthy(value))
  }
}
