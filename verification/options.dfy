/** The optional value the calculator passes around where Python uses `None`. */
module Options {

  datatype Option<+T> = None | Some(value: T)
}
