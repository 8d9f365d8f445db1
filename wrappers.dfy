/** The optional value used wherever the modelled program fails at run time
  * (an index past the end of a table, a character read past the end of a string). */
module Wrappers {
  datatype Option<T> = None | Some(value: T)
}
