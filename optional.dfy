/** The value-or-nothing wrapper used for the source's nullable and optional fields. */
module Optional {

  datatype Option<+T> = None | Some(value: T)
}
