/** Failure-carrying datatypes shared by every module of the model.
    `Fatal` stands for a Swift `fatalError`, a failed force unwrap or an
    out-of-range index: the process stops there, carrying the message. */
module Wrappers {

  datatype Option<T> = None | Some(value: T)

  /** The value of a function that may trap. */
  datatype Result<T> = Ok(value: T) | Fatal(message: string)

  /** The outcome of a method that may trap; on `Stopped` the state it leaves
      behind is never observed by the program. */
  datatype Status = Completed | Stopped(message: string)
}
