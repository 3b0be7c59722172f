/** Option and Result, used for Java's nullable returns and for thrown exceptions. */
module Wrappers {

  datatype Option<+T> = None | Some(value: T)

  /** `Err` stands for an exception the source throws; `reason` names it. */
  datatype Result<+T> = Ok(value: T) | Err(reason: string)
}
