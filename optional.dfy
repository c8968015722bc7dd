/** An optional value, for fields and inputs that may be absent. */
module Optional {

  datatype Option<+T> = None | Some(value: T)
}
