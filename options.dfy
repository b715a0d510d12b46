/** The optional value used for "this row could not be normalised". */
module Options {
  datatype Option<+T> = None | Some(value: T)
}
