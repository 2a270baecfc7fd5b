/** Results of calls that may be missing or may fail. A failure carries the
    text that the JavaScript runtime puts in `error.message`. */
module Outcome {

  datatype Option<+T> = None | Some(value: T)

  datatype Result<+T> = Ok(value: T) | Err(error: string)
}
