/** An optional value: a nullable column, a missing field, an absent row. */
module Options {
  datatype Option<+T> = None | Some(value: T)
}
