/** Small wrappers shared by every module: optional values and the outcome of a call that may throw. */
module Base {

  /** A value that may be missing (JavaScript's `undefined`/`null`, or a NaN that `|| 0` treats as missing). */
  datatype Option<+T> = None | Some(value: T) {
    function GetOr(default: T): T
    {
      match this
      case Some(v) => v
      case None => default
    }
  }

  /** The settled state of a promise: it resolved with a value, or it was rejected with a reason. */
  datatype Outcome<+T> = Done(value: T) | Raised(reason: string)

  /** `x || 0` on a stored number: a missing value (or NaN, modelled as missing) counts as zero. */
  function OrZero(x: Option<real>): real
  {
    x.GetOr(0.0)
  }
}
