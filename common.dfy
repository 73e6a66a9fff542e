/** Small value types shared by the loader's components: optional values,
    results that carry an error message (the `message` of a JavaScript
    `Error`), and JavaScript truthiness for the values the loader tests with
    `||` and `!`. */
module Common {

  datatype Option<+T> = None | Some(value: T)

  /** A JavaScript call that either returns a value or throws an `Error`
      whose message is `message`. */
  datatype Result<+T> = Ok(value: T) | Err(message: string)

  /** A JavaScript call that returns nothing or throws. */
  datatype Outcome = Pass | Fail(message: string)

  /** Truthiness of a string that may be `undefined`: only a present,
      non-empty string is truthy. */
  predicate Truthy(s: Option<string>) {
    s.Some? && s.value != ""
  }

  /** `env[name]` for a JavaScript object used as a dictionary. */
  function Lookup(env: map<string, string>, name: string): Option<string> {
    if name in env then Some(env[name]) else None
  }

  /** `a || b` on two possibly-undefined strings. */
  function Or(a: Option<string>, b: Option<string>): Option<string> {
    if Truthy(a) then a else b
  }

  /** How a template literal renders a possibly-undefined string. */
  function Render(s: Option<string>): string {
    match s
    case Some(v) => v
    case None => "undefined"
  }
}
