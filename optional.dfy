/** A JavaScript value that may be `null`/`undefined`, or a lookup that may find nothing. */
module Optional {

  datatype Option<T> = None | Some(value: T)
}
