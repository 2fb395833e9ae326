/** The optional value used where a widget or a parse may produce nothing. */
module Options {

  datatype Option<T> = None | Some(value: T)
}
