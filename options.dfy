/** The optional value that Rust's `Option` and a failing `Result` both become here. */
module Options {

  datatype Option<+T> = None | Some(value: T)
}
