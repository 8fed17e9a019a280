/** The optional value used wherever the source has "no number" (NaN from
    parseFloat, a ValueError from float(), None from a sampling round, a
    null port). */
module Wrappers {

  datatype Option<+T> = None | Some(value: T)
}
