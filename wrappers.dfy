/** The optional value that the HIR and the lint's result are built from. */
module Wrappers {

  datatype Option<+T> = None | Some(value: T)
}
