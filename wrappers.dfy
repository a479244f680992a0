/** An optional value, used for the configuration's optional `importSource`
    and for the optional "imported as" name of an import specifier. */
module Wrappers {
  datatype Option<+T> = None | Some(value: T)
}
