/** An optional value: a branch target that may be missing, an index that
    may not be found, a payload list that may be absent. */
module Options {

  datatype Option<T> = None | Some(value: T)
}
