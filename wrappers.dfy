/** Failure-carrying values: the model's stand-in for `Result<_, Box<dyn Error>>`
    and for `Option`. Every error is represented by its message. */
module Wrappers {

  datatype Option<+T> = None | Some(value: T)

  datatype Result<+T> = Ok(value: T) | Err(error: string)
}
