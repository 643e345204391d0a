/** The optional value used for absent parameters, missing rows and null results. */
module Options {
  datatype Option<+T> = None | Some(value: T)
}
