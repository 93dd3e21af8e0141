/** What several components share. */
module Common {

  datatype Option<T> = None | Some(value: T)
}
