/**
 An optional value: an omitted argument, or the result of an engine query
 that may find nothing.
 */
module Options {

  datatype Option<+T> = None | Some(value: T)
}
