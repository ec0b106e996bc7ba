/**
 An optional value: a table entry that may be missing, a search that may
 find nothing, a spin request that may be refused.
 */
module Options {
  datatype Option<T> = None | Some(value: T)
}
