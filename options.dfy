/** The optional value used wherever the script uses `null` for "nothing". */
module Options {
  datatype Option<+T> = None | Some(value: T)
}
