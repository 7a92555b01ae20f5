/** The optional value used where the plugin's code leaves a name unset or
    answers `False`. */
module Wrappers {

  datatype Option<+T> = None | Some(value: T)
}
