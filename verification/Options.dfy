/** The values that a column or a query may lack. */
module Options {
  datatype Option<+T> = None | Some(value: T)
}
