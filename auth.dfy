/**
 * The collaborators the handlers call and this model does not open: the token,
 * key, request and block objects of the biscuit library, the readers and
 * conflict checks of the `input` module, the inspectors, and the clock behind a
 * TTL. Their objects are abstract types and their operations the fields of a
 * `Library` value; each operation that can fail returns a `Result`.
 */
module Auth {
  import opened Results
  import opened Input
  import opened Errors
  import opened Cli

  type PrivateKey
  type KeyPair
  type Biscuit
  type BiscuitBuilder
  type BlockBuilder
  type Request
  type ThirdPartyBlock
  type Date

  datatype Library = Library(
    // the `input` module
    readPrivateKey: (KeyBytes, Option<Algorithm>) -> Result<PrivateKey, Reason>,
    readBiscuit: BiscuitBytes -> Result<Biscuit, Reason>,
    readRequest: BiscuitBytes -> Result<Request, Reason>,
    readAuthority: (DatalogInput, seq<Param>, Option<string>, BiscuitBuilder) -> Result<BiscuitBuilder, Reason>,
    readBlock: (DatalogInput, seq<Param>, Option<string>, BlockBuilder) -> Result<BlockBuilder, Reason>,
    noInputConflict: (DatalogInput, BiscuitBytes) -> Result<(), Reason>,
    noInputConflictThirdParty: (BiscuitBytes, BiscuitBytes) -> Result<(), Reason>,
    appendThirdPartyFrom: (Biscuit, BiscuitBytes) -> Result<Biscuit, Reason>,
    // the `inspect` module
    inspect: Inspect -> Result<(), Reason>,
    inspectSnapshot: InspectSnapshot -> Result<(), Reason>,
    // `Ttl::to_datetime`, which reads the clock
    expiration: Ttl -> Date,
    // keys
    keyPairFrom: PrivateKey -> KeyPair,
    newKeyPair: Algorithm -> KeyPair,
    privateBytes: KeyPair -> seq<byte>,
    publicBytes: KeyPair -> seq<byte>,
    privateText: KeyPair -> string,
    publicText: KeyPair -> string,
    privatePem: KeyPair -> Result<string, Reason>,
    publicPem: KeyPair -> Result<string, Reason>,
    // builders
    biscuitBuilder: BiscuitBuilder,
    blockBuilder: BlockBuilder,
    checkExpiration: (BiscuitBuilder, Date) -> BiscuitBuilder,
    blockCheckExpiration: (BlockBuilder, Date) -> BlockBuilder,
    rootKeyId: (BiscuitBuilder, u32) -> BiscuitBuilder,
    // tokens, requests and third-party blocks
    build: (BiscuitBuilder, KeyPair) -> Result<Biscuit, Reason>,
    append: (Biscuit, BlockBuilder) -> Result<Biscuit, Reason>,
    seal: Biscuit -> Result<Biscuit, Reason>,
    thirdPartyRequest: Biscuit -> Result<Request, Reason>,
    createBlock: (Request, PrivateKey, BlockBuilder) -> Result<ThirdPartyBlock, Reason>,
    // serialisation
    biscuitToVec: Biscuit -> Result<seq<byte>, Reason>,
    biscuitToBase64: Biscuit -> Result<string, Reason>,
    requestSerialize: Request -> Result<seq<byte>, Reason>,
    requestSerializeBase64: Request -> Result<string, Reason>,
    blockSerialize: ThirdPartyBlock -> Result<seq<byte>, Reason>,
    blockSerializeBase64: ThirdPartyBlock -> Result<string, Reason>)
}
