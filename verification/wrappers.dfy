/** The optional value used wherever the source has `undefined` or `null`. */
module Wrappers {

  datatype Option<+T> = None | Some(value: T)

  /** JavaScript truthiness of an optional string: neither missing nor empty. */
  predicate IsSet(o: Option<string>) {
    o.Some? && o.value != ""
  }
}
