/** A value that may be missing: PHP's `null` result of a lookup or pop that finds nothing. */
module Options {
  datatype Option<+T> = None | Some(value: T)
}
