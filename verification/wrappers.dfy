/** Option type used for the "not computed" outcomes of the model. */
module Wrappers {

  datatype Option<+T> = None | Some(value: T)

}
