/** Small shared vocabulary: optional values, the clock, store failures, and JavaScript's `||` fallback. */
module Common {

  /** A value that may be missing: an absent document field, `null`, or `undefined`. */
  datatype Option<+T> = None | Some(value: T) {
    function GetOr(default: T): T {
      match this
      case Some(v) => v
      case None => default
    }
  }

  /** A point in time, as the number of milliseconds since the epoch. The clock is an input wherever the source calls `new Date()`. */
  type Time = nat

  /** The store calls of one operation are numbered 1, 2, ... in the order the source issues them.
      A `Fault` names the first call that the store rejects (the source never gets past it), or none. */
  datatype Fault = NoFault | FailAt(call: nat) {
    predicate Rejects(k: nat) {
      FailAt? && call == k
    }
  }

  /** Whether a JavaScript promise resolved or rejected. */
  datatype Completion = Resolved | Rejected

  /** `s || fallback` for a string field that may be missing: missing and empty both fall back. */
  function OrElse(s: Option<string>, fallback: string): (r: string)
    ensures r == fallback || (s.Some? && r == s.value && r != "")
    ensures s.Some? && s.value != "" ==> r == s.value
  {
    if s.Some? && s.value != "" then s.value else fallback
  }

  /** `s || null` for a string field that may be missing: the empty string becomes null. */
  function OrNull(s: Option<string>): (r: Option<string>)
    ensures r != Some("")
    ensures r.Some? ==> r == s
    ensures s.Some? && s.value != "" ==> r == s
  {
    if s.Some? && s.value != "" then s else None
  }
}
