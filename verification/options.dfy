/** The usual optional-value wrapper, used for fields a request may omit and for parse failures. */
module Options {

  datatype Option<+T> = None | Some(value: T)
}
