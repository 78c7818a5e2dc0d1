/** The optional value the model uses wherever the source returns `None`
    or a result: a missing reply, a blank table row, an unknown name. */
module Wrappers {

  datatype Option<T> = None | Some(value: T)
}
