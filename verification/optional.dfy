/** Failure-compatible wrappers shared by the whole model: `Option` stands for a
    nullable column or a parse that may fail, `Result` for an operation that either
    succeeds with a value or reports a set of validation errors. */
module Optional {

  datatype Option<+T> = None | Some(value: T)

  datatype Result<+R, +E> = Ok(value: R) | Err(error: E)
}
