/** The optional-value type used for the cart's "no discount strategy" default
    and for the line item a removal lets go of. */
module Wrappers {

  datatype Option<+T> = None | Some(value: T)
}
