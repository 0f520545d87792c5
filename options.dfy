/** JavaScript's `T | undefined`, for lookups that may find nothing and for
    optional arguments. */
module Options {
  datatype Option<T> = None | Some(value: T)
}
