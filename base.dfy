/** Small shared datatypes. */
module Base {

  /** An optional value: a missing lookup, an unmatched token, a null pointer. */
  datatype Option<T> = None | Some(value: T)
}
