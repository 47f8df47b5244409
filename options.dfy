/** The usual optional value, used for partial decoders and for a random source that can run dry. */
module Options {
  datatype Option<T> = None | Some(value: T)
}
