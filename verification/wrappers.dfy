/** Option and Result, used for NULL parameters, absent lookups and DDL errors. */
module Wrappers {

  /** `None` stands for an absent value (a NULL parameter, a failed lookup). */
  datatype Option<+T> = None | Some(value: T)

  /** Success or failure of an operation that may be refused. */
  datatype Result<+R, +E> = Success(value: R) | Failure(error: E)
}
