/** A value that may be missing: a distance reading or a pose estimate whose
    call raised and whose exception the loop's handler caught. */
module Wrappers {

  datatype Option<+T> = None | Some(value: T)

}
