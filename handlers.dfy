/**
 * The subcommand handlers, step by step: each resolves its input sources,
 * runs the conflict check where it has one, reads its inputs, reassigns its
 * builder as options apply, calls the token library, serialises and writes.
 * Each is proved to take exactly the steps, write exactly the output and end
 * exactly as its specification in `Pipeline` says.
 */
module Handlers {
  import opened Results
  import opened Input
  import opened Errors
  import opened Cli
  import opened Sources
  import opened Auth
  import opened Pipeline

  /** The process's standard output, with the steps taken so far. */
  class Session {
    var trace: seq<Step>
    var stdout: seq<Output>

    constructor ()
      ensures trace == [] && stdout == []
    {
      trace := [];
      stdout := [];
    }

    method Record(s: Step)
      modifies this
      ensures trace == old(trace) + [s] && stdout == old(stdout)
    {
      trace := trace + [s];
    }

    /** `io::stdout().write_all`; every caller ignores its result, so it cannot fail here. */
    method WriteAll(o: Output)
      modifies this
      ensures trace == old(trace) + [Write] && stdout == old(stdout) + [o]
    {
      trace := trace + [Write];
      stdout := stdout + [o];
    }

    /** `println!`: the line and a newline. */
    method Println(line: string)
      modifies this
      ensures trace == old(trace) + [Write] && stdout == old(stdout) + [Text(line + "\n")]
    {
      WriteAll(Text(line + "\n"));
    }
  }

  /** Serialise `x` as `raw` asks and write it. */
  method Emit<T>(io: Session, raw: bool, toVec: T -> Result<seq<byte>, Reason>, toBase64: T -> Result<string, Reason>,
                 x: T, panics: bool) returns (r: Result<(), Fault>)
    modifies io
    ensures io.trace == Serialized(old(io.trace), raw, toVec, toBase64, x, panics).steps
    ensures io.stdout == old(io.stdout) + Serialized(old(io.trace), raw, toVec, toBase64, x, panics).out
    ensures r == Serialized(old(io.trace), raw, toVec, toBase64, x, panics).outcome
  {
    io.Record(Serialize(raw));
    var encoded := Encoding(raw, toVec, toBase64, x);
    if encoded.Err? {
      return Err(if panics then Panic(SerializePanicMessage) else Failed(encoded.error));
    }
    io.WriteAll(encoded.value);
    r := Ok(());
  }

  /** The output branch of `keypair`. */
  method PrintKeys(io: Session, shape: KeyOutput, provided: bool, kp: KeyPair, lib: Library) returns (r: Result<(), Fault>)
    modifies io
    ensures io.trace == KeyPairWrites(old(io.trace), shape, provided, kp, lib).steps
    ensures io.stdout == old(io.stdout) + KeyPairWrites(old(io.trace), shape, provided, kp, lib).out
    ensures r == KeyPairWrites(old(io.trace), shape, provided, kp, lib).outcome
  {
    match shape {
    case BothHex =>
      io.Println(HexHeader(provided));
      io.Println("Private key: " + lib.privateText(kp));
      io.Println("Public key: " + lib.publicText(kp));
    case BothPem =>
      io.Println(PemHeader(provided));
      var privatePem := lib.privatePem(kp);
      if privatePem.Err? { return Err(Failed(privatePem.error)); }
      var publicPem := lib.publicPem(kp);
      if publicPem.Err? { return Err(Failed(publicPem.error)); }
      io.Println(privatePem.value + publicPem.value);
    case PrivateRaw =>
      io.WriteAll(Bytes(lib.privateBytes(kp)));
    case PrivateHex =>
      io.Println(lib.privateText(kp));
    case PrivatePem =>
      var pem := lib.privatePem(kp);
      if pem.Err? { return Err(Failed(pem.error)); }
      io.Println(pem.value);
    case PublicRaw =>
      io.WriteAll(Bytes(lib.publicBytes(kp)));
    case PublicHex =>
      io.Println(lib.publicText(kp));
    case PublicPem =>
      var pem := lib.publicPem(kp);
      if pem.Err? { return Err(Failed(pem.error)); }
      io.Println(pem.value);
    }
    r := Ok(());
  }

  /** `--add-ttl` and `--root-key-id` of `generate`, applied to the authority block builder. */
  method ApplyAuthorityOptions(io: Session, c: Generate, lib: Library, b0: BiscuitBuilder) returns (b: BiscuitBuilder)
    modifies io
    ensures b == AuthorityBuilder(c, lib, b0)
    ensures io.trace == AuthoritySteps(c, old(io.trace)) && io.stdout == old(io.stdout)
  {
    b := b0;
    if c.addTtl.Some? {
      io.Record(AddTtl);
      b := lib.checkExpiration(b, lib.expiration(c.addTtl.value));
    }
    if c.rootKeyId.Some? {
      io.Record(AddRootKeyId);
      b := lib.rootKeyId(b, c.rootKeyId.value);
    }
  }

  /** `--add-ttl`, applied to a block builder. */
  method ApplyBlockTtl(io: Session, lib: Library, b0: BlockBuilder, ttl: Option<Ttl>) returns (b: BlockBuilder)
    modifies io
    ensures b == BlockWithTtl(lib, b0, ttl)
    ensures io.trace == WithTtl(old(io.trace), ttl) && io.stdout == old(io.stdout)
  {
    b := b0;
    if ttl.Some? {
      io.Record(AddTtl);
      b := lib.blockCheckExpiration(b, lib.expiration(ttl.value));
    }
  }

  /** `handle_keypair`: the imperative rendering of `Pipeline.KeyPairRun`. */
  method HandleKeyPair(c: KeyPairCmd, lib: Library, io: Session) returns (r: Result<(), Fault>)
    modifies io
    ensures io.trace == KeyPairRun(c, lib, old(io.trace)).steps
    ensures io.stdout == old(io.stdout) + KeyPairRun(c, lib, old(io.trace)).out
    ensures r == KeyPairRun(c, lib, old(io.trace)).outcome
  {
    io.Record(ResolveSources);
    var from := KeyPairKeySource(c);
    if from.Err? { return Err(from.error); }
    var keyPair: KeyPair;
    if from.value.Some? {
      io.Record(ReadKey);
      var privateKey := lib.readPrivateKey(from.value.value, c.fromAlgorithm);
      if privateKey.Err? { return Err(Failed(privateKey.error)); }
      io.Record(DeriveKeyPair);
      keyPair := lib.keyPairFrom(privateKey.value);
    } else {
      io.Record(GenerateKeyPair);
      keyPair := lib.newKeyPair(c.keyAlgorithm.Or(DefaultAlgorithm));
    }
    var shape := KeyPairOutput(c.onlyPrivateKey, c.onlyPublicKey, c.keyOutputFormat);
    if shape.Err? { return Err(shape.error); }
    r := PrintKeys(io, shape.value, from.value.Some?, keyPair, lib);
  }

  /** `handle_generate`: the imperative rendering of `Pipeline.GenerateRun`, with the corrected signing-key table. */
  method HandleGenerate(c: Generate, lib: Library, io: Session) returns (r: Result<(), Fault>)
    modifies io
    ensures io.trace == GenerateRun(c, lib, old(io.trace)).steps
    ensures io.stdout == old(io.stdout) + GenerateRun(c, lib, old(io.trace)).out
    ensures r == GenerateRun(c, lib, old(io.trace)).outcome
  {
    io.Record(ResolveSources);
    var authorityFrom := AuthoritySource(c.authorityFile);
    var keyFrom := SigningKeySource(c.privateKeyArgs);
    if keyFrom.Err? { return Err(keyFrom.error); }
    io.Record(ReadKey);
    var privateKey := lib.readPrivateKey(keyFrom.value, c.privateKeyArgs.privateKeyAlgorithm);
    if privateKey.Err? { return Err(Failed(privateKey.error)); }
    io.Record(DeriveKeyPair);
    var root := lib.keyPairFrom(privateKey.value);
    var builder := lib.biscuitBuilder;
    io.Record(ReadDatalog);
    var read := lib.readAuthority(authorityFrom, c.paramArg.param, c.context, builder);
    if read.Err? { return Err(Failed(read.error)); }
    builder := ApplyAuthorityOptions(io, c, lib, read.value);
    io.Record(Sign);
    var biscuit := lib.build(builder, root);
    if biscuit.Err? { return Err(Panic(BuildPanicMessage)); }
    r := Emit(io, c.raw, lib.biscuitToVec, lib.biscuitToBase64, biscuit.value, true);
  }

  /** `handle_attenuate`: the imperative rendering of `Pipeline.AttenuateRun`. */
  method HandleAttenuate(c: Attenuate, lib: Library, io: Session) returns (r: Result<(), Fault>)
    modifies io
    ensures io.trace == AttenuateRun(c, lib, old(io.trace)).steps
    ensures io.stdout == old(io.stdout) + AttenuateRun(c, lib, old(io.trace)).out
    ensures r == AttenuateRun(c, lib, old(io.trace)).outcome
  {
    io.Record(ResolveSources);
    var biscuitFrom := TokenSource(c.biscuitInputArgs);
    var blockFrom := BlockSource(c.blockArgs);
    if blockFrom.Err? { return Err(blockFrom.error); }
    io.Record(CheckConflict);
    var conflict := lib.noInputConflict(blockFrom.value, biscuitFrom);
    if conflict.Err? { return Err(Failed(conflict.error)); }
    io.Record(ReadToken);
    var biscuit := lib.readBiscuit(biscuitFrom);
    if biscuit.Err? { return Err(Failed(biscuit.error)); }
    var blockBuilder := lib.blockBuilder;
    io.Record(ReadDatalog);
    var read := lib.readBlock(blockFrom.value, c.paramArg.param, c.blockArgs.context, blockBuilder);
    if read.Err? { return Err(Failed(read.error)); }
    blockBuilder := ApplyBlockTtl(io, lib, read.value, c.blockArgs.addTtl);
    io.Record(Append);
    var newBiscuit := lib.append(biscuit.value, blockBuilder);
    if newBiscuit.Err? { return Err(Failed(newBiscuit.error)); }
    r := Emit(io, c.rawOutput, lib.biscuitToVec, lib.biscuitToBase64, newBiscuit.value, false);
  }

  /** `handle_generate_request`: the imperative rendering of `Pipeline.GenerateRequestRun`. */
  method HandleGenerateRequest(c: GenerateThirdPartyBlockRequest, lib: Library, io: Session) returns (r: Result<(), Fault>)
    modifies io
    ensures io.trace == GenerateRequestRun(c, lib, old(io.trace)).steps
    ensures io.stdout == old(io.stdout) + GenerateRequestRun(c, lib, old(io.trace)).out
    ensures r == GenerateRequestRun(c, lib, old(io.trace)).outcome
  {
    io.Record(ResolveSources);
    var biscuitFrom := TokenSource(c.biscuitInputArgs);
    io.Record(ReadToken);
    var biscuit := lib.readBiscuit(biscuitFrom);
    if biscuit.Err? { return Err(Failed(biscuit.error)); }
    io.Record(MakeRequest);
    var request := lib.thirdPartyRequest(biscuit.value);
    if request.Err? { return Err(Failed(request.error)); }
    r := Emit(io, c.rawOutput, lib.requestSerialize, lib.requestSerializeBase64, request.value, false);
  }

  /**
   * `handle_generate_third_party_block`: the imperative rendering of
   * `Pipeline.GenerateThirdPartyBlockRun`, with the corrected signing-key table;
   * what follows the request read is `CreateThirdPartyBlock`.
   */
  method HandleGenerateThirdPartyBlock(c: GenerateThirdPartyBlock, lib: Library, io: Session) returns (r: Result<(), Fault>)
    modifies io
    ensures io.trace == GenerateThirdPartyBlockRun(c, lib, old(io.trace)).steps
    ensures io.stdout == old(io.stdout) + GenerateThirdPartyBlockRun(c, lib, old(io.trace)).out
    ensures r == GenerateThirdPartyBlockRun(c, lib, old(io.trace)).outcome
  {
    io.Record(ResolveSources);
    var requestFrom := FileSource(c.requestFile, c.rawInput);
    var blockFrom := BlockSource(c.blockArgs);
    if blockFrom.Err? { return Err(blockFrom.error); }
    io.Record(CheckConflict);
    var conflict := lib.noInputConflict(blockFrom.value, requestFrom);
    if conflict.Err? { return Err(Failed(conflict.error)); }
    var keyFrom := SigningKeySource(c.privateKeyArgs);
    if keyFrom.Err? { return Err(keyFrom.error); }
    io.Record(ReadKey);
    var privateKey := lib.readPrivateKey(keyFrom.value, c.privateKeyArgs.privateKeyAlgorithm);
    io.Record(ReadRequest);
    var request := lib.readRequest(requestFrom);
    if request.Err? { return Err(Failed(request.error)); }
    r := CreateThirdPartyBlock(c, lib, blockFrom.value, privateKey, request.value, io);
  }

  /** The rest of `handle_generate_third_party_block`: the imperative rendering of `Pipeline.ThirdPartyBlockCreated`. */
  method CreateThirdPartyBlock(c: GenerateThirdPartyBlock, lib: Library, blockFrom: DatalogInput,
                               key: Result<PrivateKey, Reason>, request: Request, io: Session) returns (r: Result<(), Fault>)
    modifies io
    ensures io.trace == ThirdPartyBlockCreated(c, lib, blockFrom, key, request, old(io.trace)).steps
    ensures io.stdout == old(io.stdout) + ThirdPartyBlockCreated(c, lib, blockFrom, key, request, old(io.trace)).out
    ensures r == ThirdPartyBlockCreated(c, lib, blockFrom, key, request, old(io.trace)).outcome
  {
    io.Record(ReadDatalog);
    var read := lib.readBlock(blockFrom, c.paramArg.param, c.blockArgs.context, lib.blockBuilder);
    if read.Err? { return Err(Failed(read.error)); }
    var builder := ApplyBlockTtl(io, lib, read.value, c.blockArgs.addTtl);
    if key.Err? { return Err(Failed(key.error)); }
    io.Record(CreateBlock);
    var block := lib.createBlock(request, key.value, builder);
    if block.Err? { return Err(Failed(block.error)); }
    r := Emit(io, c.rawOutput, lib.blockSerialize, lib.blockSerializeBase64, block.value, false);
  }

  /** `handle_append_third_party_block`: the imperative rendering of `Pipeline.AppendThirdPartyBlockRun`. */
  method HandleAppendThirdPartyBlock(c: AppendThirdPartyBlock, lib: Library, io: Session) returns (r: Result<(), Fault>)
    modifies io
    ensures io.trace == AppendThirdPartyBlockRun(c, lib, old(io.trace)).steps
    ensures io.stdout == old(io.stdout) + AppendThirdPartyBlockRun(c, lib, old(io.trace)).out
    ensures r == AppendThirdPartyBlockRun(c, lib, old(io.trace)).outcome
  {
    io.Record(ResolveSources);
    var biscuitFrom := TokenSource(c.biscuitInputArgs);
    var blockFrom := ThirdPartyBlockSource(c);
    if blockFrom.Err? { return Err(blockFrom.error); }
    io.Record(CheckConflict);
    var conflict := lib.noInputConflictThirdParty(blockFrom.value, biscuitFrom);
    if conflict.Err? { return Err(Failed(conflict.error)); }
    io.Record(ReadToken);
    var biscuit := lib.readBiscuit(biscuitFrom);
    if biscuit.Err? { return Err(Failed(biscuit.error)); }
    io.Record(AppendThirdParty);
    var newBiscuit := lib.appendThirdPartyFrom(biscuit.value, blockFrom.value);
    if newBiscuit.Err? { return Err(Failed(newBiscuit.error)); }
    r := Emit(io, c.rawOutput, lib.biscuitToVec, lib.biscuitToBase64, newBiscuit.value, false);
  }

  /** `handle_seal`: the imperative rendering of `Pipeline.SealRun`. */
  method HandleSeal(c: Seal, lib: Library, io: Session) returns (r: Result<(), Fault>)
    modifies io
    ensures io.trace == SealRun(c, lib, old(io.trace)).steps
    ensures io.stdout == old(io.stdout) + SealRun(c, lib, old(io.trace)).out
    ensures r == SealRun(c, lib, old(io.trace)).outcome
  {
    io.Record(ResolveSources);
    var biscuitFrom := TokenSource(c.biscuitInputArgs);
    io.Record(ReadToken);
    var biscuit := lib.readBiscuit(biscuitFrom);
    if biscuit.Err? { return Err(Failed(biscuit.error)); }
    io.Record(SealToken);
    var sealed := lib.seal(biscuit.value);
    if sealed.Err? { return Err(Failed(sealed.error)); }
    r := Emit(io, c.rawOutput, lib.biscuitToVec, lib.biscuitToBase64, sealed.value, false);
  }

  /** `handle_inspect` and `handle_inspect_snapshot`, whose reports are not modelled. */
  method Inspect(result: Result<(), Reason>, io: Session) returns (r: Result<(), Fault>)
    modifies io
    ensures io.trace == Inspection(result, old(io.trace)).steps
    ensures io.stdout == old(io.stdout) + Inspection(result, old(io.trace)).out
    ensures r == Inspection(result, old(io.trace)).outcome
  {
    io.Record(RunInspection);
    r := if result.Ok? then Ok(()) else Err(Failed(result.error));
  }

  /** `handle_command`: the imperative rendering of `Pipeline.CommandRun`. */
  method HandleCommand(cmd: SubCommand, lib: Library, io: Session) returns (r: Result<(), Fault>)
    modifies io
    ensures io.trace == CommandRun(cmd, lib, old(io.trace)).steps
    ensures io.stdout == old(io.stdout) + CommandRun(cmd, lib, old(io.trace)).out
    ensures r == CommandRun(cmd, lib, old(io.trace)).outcome
  {
    match cmd
    case KeyPairCmd(c) => r := HandleKeyPair(c, lib, io);
    case Inspect(c) => r := Inspect(lib.inspect(c), io);
    case InspectSnapshot(c) => r := Inspect(lib.inspectSnapshot(c), io);
    case Generate(c) => r := HandleGenerate(c, lib, io);
    case Attenuate(c) => r := HandleAttenuate(c, lib, io);
    case GenerateThirdPartyBlockRequest(c) => r := HandleGenerateRequest(c, lib, io);
    case GenerateThirdPartyBlock(c) => r := HandleGenerateThirdPartyBlock(c, lib, io);
    case AppendThirdPartyBlock(c) => r := HandleAppendThirdPartyBlock(c, lib, io);
    case Seal(c) => r := HandleSeal(c, lib, io);
  }
}
