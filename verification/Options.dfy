/** The conventional optional value, standing for what may be absent. */
module Options {
  datatype Option<+T> = None | Some(value: T)
}
