// The optional value used wherever the Python source has `X | None`.
module Options {
  datatype Option<+T> = None | Some(value: T)
}
