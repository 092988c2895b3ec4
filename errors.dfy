/** The coarse error kinds a decode can fail with. */
module Errors {
  import opened Wrappers

  /** Why a decode failed. The field path and serde's exact wording are not modelled. */
  datatype DecodeError =
    | MissingField(field: string)     // a required element is absent
    | DuplicateField(field: string)   // a singular element occurs more than once
    | UnknownVariant(raw: string)     // text that is not one of an enumeration's tokens
    | InvalidInteger(raw: string)     // text that is not an unsigned decimal literal
    | OutOfRange(raw: string)         // a decimal literal too large for the field's width
    | InvalidAddress(raw: string)     // text the address parser rejects

  type Decoded<+T> = Result<T, DecodeError>
}
