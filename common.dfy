/**
 * Values shared by every part of the client core: optional values, results,
 * the JavaScript `Error` objects the code throws, and the two JavaScript idioms
 * the code leans on everywhere (truthiness of a string and `s || fallback`).
 */
module Common {

  datatype Option<+T> = None | Some(value: T)

  datatype Result<+T, +E> = Ok(value: T) | Err(error: E)

  /**
   * A thrown JavaScript error as the handlers see it: `error.name`,
   * `error.message` and, for an `ApiError`, `error.status` (absent on a plain
   * `new Error(...)`, so `error.status === 401` is false for those).
   */
  datatype Error = Error(name: string, message: string, status: Option<int>)

  /** `new Error(message)`. */
  function PlainError(message: string): (e: Error)
    ensures e.message == message && e.status == None
  {
    Error("Error", message, None)
  }

  /** A string is truthy in JavaScript exactly when it is not empty. */
  predicate Truthy(s: string) {
    s != ""
  }

  /** `null`/`undefined` and the empty string are falsy; any other string is truthy. */
  predicate TruthyOpt(s: Option<string>) {
    s.Some? && Truthy(s.value)
  }

  /** `s || fallback` on strings: the fallback replaces only the empty string. */
  function OrElse(s: string, fallback: string): (r: string)
    ensures Truthy(s) ==> r == s
    ensures !Truthy(s) ==> r == fallback
    ensures Truthy(fallback) ==> Truthy(r)
  {
    if Truthy(s) then s else fallback
  }

  /** `s || fallback` where `s` may also be missing (`undefined`/`null`). */
  function OptOrElse(s: Option<string>, fallback: string): (r: string)
    ensures TruthyOpt(s) ==> r == s.value
    ensures !TruthyOpt(s) ==> r == fallback
    ensures Truthy(fallback) ==> Truthy(r)
  {
    if TruthyOpt(s) then s.value else fallback
  }

  /** `s.startsWith(prefix)`. */
  predicate StartsWith(s: string, prefix: string) {
    |prefix| <= |s| && s[..|prefix|] == prefix
  }
}
