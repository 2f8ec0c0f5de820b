/** The optional values the checkout form keeps: a banner that is shown or not,
    a field of an SDK event that may be missing. */
module Wrappers {

  datatype Option<+T> = None | Some(value: T)
}
