/** Small shared definitions. */
module Prelude {

  datatype Option<+T> = None | Some(value: T)
}
