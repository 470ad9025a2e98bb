/** A nullable value: a database column or a dictionary entry that may be NULL / None. */
module Wrappers {

  datatype Option<+T> = None | Some(value: T)

}
