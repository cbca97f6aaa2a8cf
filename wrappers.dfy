/**
  Small value types shared by the client and the server model: an optional
  value (JavaScript's `null` / `undefined`), the way an awaited call settles,
  and the truthiness test the handlers apply to optional strings.
 */
module Wrappers {

  datatype Option<+T> = None | Some(value: T)

  /** An awaited call either resolves with a value or rejects (throws). */
  datatype Settled<+T> = Resolved(value: T) | Rejected

  /** JavaScript truthiness of a string that may be missing: present and not the empty string. */
  predicate Truthy(s: Option<string>) {
    s.Some? && s.value != ""
  }
}
