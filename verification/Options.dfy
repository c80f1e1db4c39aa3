/** A value that may be absent: `std::optional`, an error code that may be unset. */
module Options {

  datatype Option<+T> = None | Some(value: T)
}
