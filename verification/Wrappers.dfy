/** Optional values and results shared by the models. */
module Wrappers {
  datatype Option<+T> = None | Some(value: T)

  /** `Refused` stands for the exception a caller catches; its text is not modelled. */
  datatype Result<+T> = Accepted(value: T) | Refused
}
