/** Small helper datatypes shared by the trading-bot model. */
module Wrappers {

  /** A value that may be absent: a failed remote call, an undefined indicator, a missing row. */
  datatype Option<+T> = None | Some(value: T)
}
