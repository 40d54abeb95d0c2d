/**
 The few JavaScript value semantics that the gate and the auth configuration
 rely on: an absent value (`undefined` or `null`), the `||` operator on
 strings, template-literal interpolation, and plain JSON-like objects.
 */
module JsValues {

  /** `None` stands for `undefined` (an unset environment variable, a missing
      property) or for `null` (what `URLSearchParams.get` returns). */
  datatype Option<+T> = None | Some(value: T)

  /** Truthiness of a value of type `string | undefined | null`: only a
      non-empty string is truthy. */
  predicate Truthy(v: Option<string>) {
    v.Some? && v.value != ""
  }

  /** `v || fallback` where `v: string | undefined | null`. */
  function OrElse(v: Option<string>, fallback: string): (r: string)
    ensures Truthy(v) ==> Some(r) == v
    ensures !Truthy(v) ==> r == fallback
    ensures r == "" ==> fallback == ""
  {
    match v
    case Some(s) => if s != "" then s else fallback
    case None => fallback
  }

  /** The text that `${v}` contributes to a template literal when `v` is a
      string or `undefined`: an unset value renders as the word "undefined". */
  function Interpolate(v: Option<string>): (r: string)
    ensures v.Some? ==> r == v.value
    ensures v.None? ==> r == "undefined"
  {
    match v
    case Some(s) => s
    case None => "undefined"
  }

  /** JSON-like values as carried by a session object. Numbers are kept as
      integers. */
  datatype Json =
    | JString(str: string)
    | JNumber(num: int)
    | JBool(boolean: bool)
    | JNull
    | JArray(items: seq<Json>)
    | JObject(fields: map<string, Json>)
}
