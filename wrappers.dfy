/** Option and Result types shared by the story model and the contract model. */
module Wrappers {

  /** An optional value: `None` stands for a JavaScript property that was never set (`undefined`). */
  datatype Option<+T> = None | Some(value: T)

  /** The outcome of a transaction: the stored story, or the error the transaction throws. */
  datatype Result<+R, +E> = Success(value: R) | Failure(error: E)
}
