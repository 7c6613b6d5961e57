/** JavaScript values as the session adapter sees them: a property that may be
    `undefined`, the truthiness test applied to claims, the string coercion that
    `Storage.setItem` performs, and the two ways a promise settles. */
module JsValues {

  /** A value that may be missing (`undefined` or `null` in JavaScript). */
  datatype Option<+T> = None | Some(value: T)

  /** JavaScript truthiness of a possibly missing string: `undefined`, `null`
      and the empty string are falsy, every other string is truthy. */
  predicate Truthy(v: Option<string>) {
    v.Some? && v.value != ""
  }

  /** The string `Storage.setItem` stores for a possibly missing value:
      `String(undefined)` is the text "undefined". */
  function StoredString(v: Option<string>): (s: string)
    ensures v.Some? ==> s == v.value
    ensures v.None? ==> s == "undefined"
  {
    match v
    case Some(t) => t
    case None => "undefined"
  }

  /** Why a promise was rejected: `init` rejects with the value `false`,
      `updateToken` with a fresh `Error`. */
  datatype Rejection = RejectedWithFalse | RejectedWithError

  /** How a promise settles. */
  datatype Settled<+T> = Resolved(value: T) | Rejected(reason: Rejection)
}
