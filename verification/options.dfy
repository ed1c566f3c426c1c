/** The optional value shared by the driver and the interface models. */
module Options {

  datatype Option<+T> = None | Some(value: T)
}
