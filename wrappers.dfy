/** The optional value used wherever a JavaScript value may be absent
    (`undefined`, `null`, a missing request field, a missing upload). */
module Wrappers {

  datatype Option<+T> = None | Some(value: T)
}
