/** Small failure-carrying datatypes shared by every module of the model. */
module Wrappers {

  /** A JavaScript value that may be absent (`null` or `undefined`). */
  datatype Option<+T> = None | Some(value: T)

  /** How a JavaScript operation ended: with a value, or by throwing (a TypeError, most often). */
  datatype Outcome<+T> = Returned(value: T) | Threw(reason: string)
}
