/** The JavaScript values the build configuration inspects, and JavaScript truthiness on them. */
module JsValues {

  datatype Option<T> = None | Some(value: T)

  /** What a `process.env.X` lookup yields: `undefined`, or a string that may be empty. */
  datatype EnvValue = Undefined | Defined(text: string)

  /** The values `shouldPrerender` can hold: the raw `PRERENDER` string, or a boolean. */
  datatype JsValue = JsBool(b: bool) | JsString(s: string)

  /** JavaScript truthiness of an environment lookup: only a non-empty string is truthy. */
  predicate EnvTruthy(v: EnvValue)
  {
    v.Defined? && v.text != ""
  }

  /** JavaScript truthiness of a boolean or a string. */
  predicate Truthy(v: JsValue)
  {
    match v
    case JsBool(b) => b
    case JsString(s) => s != ""
  }
}
