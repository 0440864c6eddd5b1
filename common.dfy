/** Failure-carrying values shared by every module of the model.
    Go's `error` is either nil or a message; `Outcome` is that pair of cases,
    and `Result` is a value-or-error pair such as `(*T, error)`. */
module Common {

  datatype Option<T> = None | Some(value: T)

  /** A Go `(value, error)` return in which exactly one half is meaningful. */
  datatype Result<T> = Ok(value: T) | Err(msg: string)

  /** A Go `error` return: `Pass` is nil, `Fail(msg)` carries the message. */
  datatype Outcome = Pass | Fail(msg: string)

  /** `fmt.Errorf(prefix + "%w", err)`: wraps a failure, leaves nil alone. */
  function Wrap(prefix: string, o: Outcome): (r: Outcome)
    ensures r.Pass? <==> o.Pass?
    ensures o.Fail? ==> r.msg == prefix + o.msg
  {
    match o
    case Pass => Pass
    case Fail(m) => Fail(prefix + m)
  }
}
