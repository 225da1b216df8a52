/** The optional value used for "no current record" and "nothing placed". */
module Wrappers {

  datatype Option<+T> = None | Some(value: T)
}
