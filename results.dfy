// Optional values and outcomes. `None` stands for JavaScript's `null` /
// `undefined` wherever the source uses them as "no value".
module Results {

  datatype Option<+T> = None | Some(value: T)

  /** The outcome of a call that may throw: `Thrown` carries what was thrown. */
  datatype Outcome<+T> = Ok(value: T) | Thrown(error: ThrownValue)

  /** A thrown JavaScript value: an `Error` object (with its message) or anything else. */
  datatype ThrownValue = ErrorObject(message: string) | NonErrorValue
}
