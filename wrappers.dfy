/** Small value wrappers shared by every module of the model. */
module Wrappers {

  /** A value that may be absent: JavaScript's `undefined`/`null` next to a present value. */
  datatype Option<+T> = None | Some(value: T)

  /**
   * What a call into the hosted backend (file storage, the language model, the entity
   * store) hands back: a value on success, or a failure whose details the components
   * never look at (every `catch` block here ignores the error object).
   */
  datatype Outcome<+T> = Success(value: T) | Failure
}
