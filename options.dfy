/** `None` or a value: a `user_names` entry, and an optional result. */
module Options {
  datatype Option<T> = None | Some(value: T)
}
