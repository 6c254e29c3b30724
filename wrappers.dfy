/** An optional value: a field that a usage record may lack, a unit that a
    sensor may not have, a reading that is not available. */
module Wrappers {

  datatype Option<+T> = None | Some(value: T)
}
