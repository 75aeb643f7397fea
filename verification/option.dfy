/** An optional value, shared by the chassis and delay models. */
module Options {

  datatype Option<T> = None | Some(value: T)
}
