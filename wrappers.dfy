/** Option and Result values shared by the other modules. */
module Wrappers {

  datatype Option<+T> = None | Some(value: T)

  /** The outcome of a step that may call `die(msg)`; every such call exits with status 1. */
  datatype Result<+T> = Ok(value: T) | Err(msg: string)
}
