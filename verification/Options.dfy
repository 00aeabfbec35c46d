/** The conventional Some/None datatype, and a truth value as a number. */
module Options {
  datatype Option<+T> = None | Some(value: T)

  function Count(b: bool): nat {
    if b then 1 else 0
  }
}
