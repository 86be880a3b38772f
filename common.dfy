/** Failure-carrying results shared by every module of the model. */
module Common {

  /** A value that may be absent: a missing JSON field, a cancelled prompt,
      an unparseable number. */
  datatype Option<+T> = None | Some(value: T)

  /** The outcome of a request handler: the success payload, or the error that
      the handler answers with (each error names its HTTP status). */
  datatype Result<+T, +E> = Success(value: T) | Failure(error: E)

  /** A JSON field where it matters whether it was left out of the body
      (`undefined`) or sent as `null`. */
  datatype Field<+T> = Absent | Null | Present(value: T)

  /** The column value a field is written as: `undefined` and `null` both
      become NULL. */
  function Column<T>(f: Field<T>): (c: Option<T>)
    ensures c.Some? <==> f.Present?
    ensures c.Some? ==> c.value == f.value
  {
    if f.Present? then Some(f.value) else None
  }

  /** A numeric field JavaScript treats as false (`!x`): absent or zero. */
  predicate Falsy(x: Option<int>)
  {
    x.None? || x.value == 0
  }

  /** A text field JavaScript treats as false: absent or empty. */
  predicate FalsyText(x: Option<string>)
  {
    x.None? || x.value == ""
  }
}
