/** Optional values, and the truthiness test the webhook applies to request parameters. */
module Wrappers {

  /** A value that may be absent, as `dict.get` returns `None` for a missing key. */
  datatype Option<+T> = None | Some(value: T)

  /** A parameter counts as given when it is present and not the empty string:
      `not x` holds for both `None` and `""`. */
  predicate Truthy(x: Option<string>)
  {
    x.Some? && x.value != ""
  }

  /** Exactly the absent value and the empty string are falsy. */
  lemma FalsyValues(x: Option<string>)
    ensures !Truthy(x) <==> x == None || x == Some("")
  {
  }
}
