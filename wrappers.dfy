/** Option type used for values the component may not have yet: an empty
    1RM field, no results computed so far, a lift missing from the catalog. */
module Wrappers {

  datatype Option<+T> = None | Some(value: T)
}
