/** Small failure-carrying datatypes shared by every module of the model. */
module Wrappers {

  /** A value that may be absent: SQL NULL, a JavaScript `undefined`/`null`. */
  datatype Option<+T> = None | Some(value: T)

  /** The outcome of one atomic store statement or a pure check: either the
      new value or the error that the statement raised. */
  datatype Result<+T> = Ok(value: T) | Err(error: string)

  /** The outcome of a step that may fail after it has already changed the
      store: in both cases `state` is what the store holds afterwards. */
  datatype Run<+S> = Done(state: S) | Failed(state: S, reason: string)

  /** JavaScript truthiness of an optional string: `undefined`, `null` and
      the empty string are all falsy. */
  predicate Truthy(s: Option<string>)
  {
    s.Some? && s.value != ""
  }

  /** `x || null` for an optional string. */
  function OrNull(s: Option<string>): (r: Option<string>)
    ensures r.Some? <==> Truthy(s)
    ensures r.Some? ==> r == s
  {
    if Truthy(s) then s else None
  }

  /** `x || null` for an optional number: 0 is falsy as well. */
  function OrNullInt(n: Option<int>): (r: Option<int>)
    ensures r.Some? <==> (n.Some? && n.value != 0)
    ensures r.Some? ==> r == n
  {
    if n.Some? && n.value != 0 then n else None
  }
}
