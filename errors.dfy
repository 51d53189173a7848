/** How a handler stops before finishing. */
module Errors {

  /** An error returned by a collaborator (`anyhow::Error`); its content is not modelled. */
  type Reason

  datatype Fault =
    | Bail(message: string)      // `bail!(...)`: a user-facing error
    | Unreachable                // `unreachable!()`: a combination the flag parser was trusted to refuse
    | Panic(message: string)     // `.expect(...)` on a failed collaborator call
    | Failed(reason: Reason)     // `?` on a failed collaborator call

  const RawKeyLiteralMessage := "raw key input is only allowed from a file or stdin"
  const BinaryKeyPairMessage := "Only a single key can be returned in a binary format"
  const BuildPanicMessage := "Error building biscuit"
  const SerializePanicMessage := "Error serializing token"
}
