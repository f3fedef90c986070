/** The optional-value datatype used wherever the modelled code may see
    `undefined`, `null` or a failed external call. */
module Wrappers {

  datatype Option<+T> = None | Some(value: T)
}
