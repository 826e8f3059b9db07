/** The JavaScript view of a string input, and the two ways the directive tests it. */
module Js {

  /** A string input as JavaScript sees it: never set, explicitly `null`, or a string. */
  datatype JsString = Undefined | Null | Str(s: string)

  /** `v == null` with JavaScript's loose equality: true of both `undefined` and `null`. */
  predicate IsNullish(v: JsString) {
    !v.Str?
  }

  /** JavaScript truthiness of a string input: only a non-empty string is truthy. */
  predicate IsTruthy(v: JsString) {
    v.Str? && v.s != ""
  }

  /** Every truthy input is non-null; the empty string is the one non-null input that is not truthy. */
  lemma TruthyAndNullish(v: JsString)
    ensures IsTruthy(v) ==> !IsNullish(v)
    ensures !IsNullish(v) && !IsTruthy(v) <==> v == Str("")
  {
  }
}
