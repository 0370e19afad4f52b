/** The few PHP value rules the controller's decisions depend on. */
module Php {

  /** A value that may be missing: `None` stands for the `false` a failed read
      returns and for an unset (or null) array entry. */
  datatype Option<+T> = None | Some(value: T)

  /** PHP's conversion of a string to boolean, used both by `empty($s)` and by
      a loose `$s == false`: exactly the empty string and "0" convert to false. */
  predicate Falsy(s: string) {
    s == "" || s == "0"
  }

  /** A loose `$v != false`, for `$v` that is either a string or `false`. */
  predicate Truthy(v: Option<string>) {
    v.Some? && !Falsy(v.value)
  }

  /** `$a['key']` for an entry that may be unset: PHP reads null, which
      concatenates as the empty string. */
  function OrEmpty(v: Option<string>): string {
    match v
    case Some(s) => s
    case None => ""
  }
}
