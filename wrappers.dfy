/** The optional value used wherever PHP code tests `=== false` or `isset`. */
module Wrappers {

  datatype Option<T> = None | Some(value: T)
}
