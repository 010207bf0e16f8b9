/** Values shared by every part of the model: JavaScript's `null`/`undefined`
    as an option, and the truthiness test the source applies to strings. */
module Common {

  /** A value that may be `null` or `undefined` in the source. */
  datatype Option<+T> = None | Some(value: T)

  /** JavaScript truthiness of an optional string: present and non-empty. */
  predicate Truthy(s: Option<string>)
  {
    s.Some? && s.value != ""
  }

  /** The text a template literal produces for an optional value
      (`${x}` renders a missing value as "undefined"). */
  function Interpolate(s: Option<string>): (r: string)
    ensures s.Some? ==> r == s.value
    ensures s.None? ==> r == "undefined"
  {
    match s
    case Some(v) => v
    case None => "undefined"
  }

  /** The text `${b}` produces for a boolean. */
  function BoolText(b: bool): (r: string)
    ensures r == "true" || r == "false"
    ensures b <==> r == "true"
  {
    if b then "true" else "false"
  }
}
