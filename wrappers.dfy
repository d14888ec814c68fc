/** An optional value: the model's stand-in for a slot that may hold `null`. */
module Wrappers {

  datatype Option<+T> = None | Some(value: T)

}
