/** Optional values and the outcomes of operations that may throw or run forever. */
module Wrappers {

  /** A Java reference that may be null. */
  datatype Option<T> = None | Some(value: T)

  /** The result of a Java call: a value, or the message of the exception it threw. */
  datatype Outcome<T> = Ok(value: T) | Fail(error: string)

  /**
   * How a computation over a possibly cyclic workflow graph ends: with a value, with an
   * exception (its message), or by exhausting the fuel that bounds it.
   */
  datatype Exec<T> = Done(value: T) | Threw(message: string) | Diverged

  /** The message of the exception Java throws on a null dereference; the model does not follow its wording. */
  const NullDereference: string := "null dereference"
}
