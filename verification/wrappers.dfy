/** The optional value used wherever the bot keeps `null` for "not there yet". */
module Wrappers {

  datatype Option<+T> = None | Some(value: T)
}
