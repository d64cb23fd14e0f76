/** Small value wrappers shared by every module of the model. */
module Wrappers {

  /** `None` stands for the JavaScript `null` (or `undefined`) of the source. */
  datatype Option<+T> = None | Some(value: T)

  /** How a call of the source ended: normally with a value, or by throwing a `TypeError`
      (reading a property of `null`).  A thrown call leaves behind whatever it had changed. */
  datatype Outcome<+T> = Normal(value: T) | TypeError
}
