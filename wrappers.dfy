/** The nullable values of the components (`Location | null`, `VerificationResult | null`). */
module Wrappers {

  datatype Option<+T> = None | Some(value: T)
}
