/**
 * What each handler does, as a specification: the steps it takes in order,
 * what it writes to standard output, and how it ends. The handler methods in
 * `Handlers` are proved to do exactly this; the lemmas below state the
 * properties of the command pipeline in these terms.
 */
module Pipeline {
  import opened Results
  import opened Input
  import opened Errors
  import opened Cli
  import opened Sources
  import opened Auth

  /** One stage of a handler. Steps that consume an input are marked by `IsRead`. */
  datatype Step =
    | ResolveSources        // option record to input sources (pure matches)
    | CheckConflict         // `ensure_no_input_conflict*`
    | ReadKey               // `read_private_key_from`
    | ReadToken             // `read_biscuit_from`
    | ReadRequest           // `read_request_from`
    | ReadDatalog           // `read_authority_from`, `read_block_from`
    | AppendThirdParty      // `append_third_party_from`: reads the block, appends it
    | DeriveKeyPair         // `KeyPair::from`
    | GenerateKeyPair       // `KeyPair::new_with_algorithm`
    | AddTtl                // `check_expiration_date`
    | AddRootKeyId          // `root_key_id`
    | Sign                  // `build`
    | Append                // `append`
    | MakeRequest           // `third_party_request`
    | CreateBlock           // `create_block`
    | SealToken             // `seal`
    | Serialize(raw: bool)  // `to_vec` / `serialize` when raw, `to_base64` / `serialize_base64` otherwise
    | Write                 // a write to standard output
    | RunInspection         // `handle_inspect`, `handle_inspect_snapshot`
  {
    predicate IsRead() {
      ReadKey? || ReadToken? || ReadRequest? || ReadDatalog? || AppendThirdParty?
    }
  }

  /** A chunk written to standard output: bytes as they are, or the UTF-8 bytes of a text. */
  datatype Output = Bytes(data: seq<byte>) | Text(text: string)

  /** The observable behaviour of one handler call. */
  datatype Run = Run(steps: seq<Step>, out: seq<Output>, outcome: Result<(), Fault>)

  function Stop(steps: seq<Step>, f: Fault): Run {
    Run(steps, [], Err(f))
  }

  /**
   * The output encoder shared by every token-producing handler: the raw
   * serialisation when `raw` is set, otherwise the base64 text.
   */
  function Encoding<T>(raw: bool, toVec: T -> Result<seq<byte>, Reason>, toBase64: T -> Result<string, Reason>, x: T)
    : (r: Result<Output, Reason>)
    ensures r.Ok? ==> (r.value.Bytes? <==> raw)
    ensures raw ==> (r.Ok? <==> toVec(x).Ok?) && (r.Ok? ==> r.value.data == toVec(x).value)
    ensures !raw ==> (r.Ok? <==> toBase64(x).Ok?) && (r.Ok? ==> r.value.text == toBase64(x).value)
  {
    if raw then
      match toVec(x)
      case Ok(bytes) => Ok(Bytes(bytes))
      case Err(e) => Err(e)
    else
      match toBase64(x)
      case Ok(text) => Ok(Text(text))
      case Err(e) => Err(e)
  }

  /**
   * After `steps`: serialise `x` as `raw` asks, then write it; `panics` says
   * whether a serialisation failure panics instead of returning an error.
   */
  function Serialized<T>(steps: seq<Step>, raw: bool, toVec: T -> Result<seq<byte>, Reason>,
                         toBase64: T -> Result<string, Reason>, x: T, panics: bool): (r: Run)
    ensures r.outcome.Ok? ==> r.steps == steps + [Serialize(raw)] + [Write] && |r.out| == 1 && (r.out[0].Bytes? <==> raw)
    ensures r.outcome.Err? ==> r.steps == steps + [Serialize(raw)] && r.out == []
    ensures r.outcome.Ok? <==> Encoding(raw, toVec, toBase64, x).Ok?
    ensures r.outcome.Ok? ==> r.out == [Encoding(raw, toVec, toBase64, x).value]
    ensures r.outcome.Err? ==>
              r.outcome.error == (if panics then Panic(SerializePanicMessage) else Failed(Encoding(raw, toVec, toBase64, x).error))
  {
    match Encoding(raw, toVec, toBase64, x)
    case Err(e) => Stop(steps + [Serialize(raw)], if panics then Panic(SerializePanicMessage) else Failed(e))
    case Ok(o) => Run(steps + [Serialize(raw)] + [Write], [o], Ok(()))
  }

  /** `steps`, followed by the expiry check step when a TTL is given. */
  function WithTtl(steps: seq<Step>, ttl: Option<Ttl>): seq<Step> {
    if ttl.Some? then steps + [AddTtl] else steps
  }

  function BlockWithTtl(lib: Library, b: BlockBuilder, ttl: Option<Ttl>): BlockBuilder {
    if ttl.Some? then lib.blockCheckExpiration(b, lib.expiration(ttl.value)) else b
  }

  // ---------------------------------------------------------------------------
  // keypair

  function HexHeader(provided: bool): string {
    if provided then "Generating a keypair from the provided private key" else "Generating a new random keypair"
  }

  function PemHeader(provided: bool): string {
    if provided then "Generating a keypair for the provided private key" else "Generating a new random keypair"
  }

  /** What `keypair` prints for an output shape, after `steps`. */
  function KeyPairWrites(steps: seq<Step>, shape: KeyOutput, provided: bool, kp: KeyPair, lib: Library): Run {
    match shape
    case BothHex =>
      Run(steps + [Write] + [Write] + [Write],
          [Text(HexHeader(provided) + "\n"),
           Text("Private key: " + lib.privateText(kp) + "\n"),
           Text("Public key: " + lib.publicText(kp) + "\n")],
          Ok(()))
    case BothPem =>
      var header := Text(PemHeader(provided) + "\n");
      (match (lib.privatePem(kp), lib.publicPem(kp))
       case (Err(e), _) => Run(steps + [Write], [header], Err(Failed(e)))
       case (Ok(_), Err(e)) => Run(steps + [Write], [header], Err(Failed(e)))
       case (Ok(p), Ok(q)) => Run(steps + [Write] + [Write], [header, Text(p + q + "\n")], Ok(())))
    case PrivateRaw => Run(steps + [Write], [Bytes(lib.privateBytes(kp))], Ok(()))
    case PrivateHex => Run(steps + [Write], [Text(lib.privateText(kp) + "\n")], Ok(()))
    case PrivatePem =>
      (match lib.privatePem(kp)
       case Err(e) => Stop(steps, Failed(e))
       case Ok(p) => Run(steps + [Write], [Text(p + "\n")], Ok(())))
    case PublicRaw => Run(steps + [Write], [Bytes(lib.publicBytes(kp))], Ok(()))
    case PublicHex => Run(steps + [Write], [Text(lib.publicText(kp) + "\n")], Ok(()))
    case PublicPem =>
      match lib.publicPem(kp)
      case Err(e) => Stop(steps, Failed(e))
      case Ok(p) => Run(steps + [Write], [Text(p + "\n")], Ok(()))
  }

  /** The output stage of `keypair`, after `steps`, for the key pair `kp`. */
  function KeyPairPrinted(c: KeyPairCmd, lib: Library, steps: seq<Step>, provided: bool, kp: KeyPair): Run {
    match KeyPairOutput(c.onlyPrivateKey, c.onlyPublicKey, c.keyOutputFormat)
    case Err(f) => Stop(steps, f)
    case Ok(shape) => KeyPairWrites(steps, shape, provided, kp, lib)
  }

  function KeyPairRun(c: KeyPairCmd, lib: Library, before: seq<Step>): Run {
    var s0 := before + [ResolveSources];
    match KeyPairKeySource(c)
    case Err(f) => Stop(s0, f)
    case Ok(None) =>
      KeyPairPrinted(c, lib, s0 + [GenerateKeyPair], false, lib.newKeyPair(c.keyAlgorithm.Or(DefaultAlgorithm)))
    case Ok(Some(k)) =>
      var s1 := s0 + [ReadKey];
      match lib.readPrivateKey(k, c.fromAlgorithm)
      case Err(e) => Stop(s1, Failed(e))
      case Ok(pk) => KeyPairPrinted(c, lib, s1 + [DeriveKeyPair], true, lib.keyPairFrom(pk))
  }

  // ---------------------------------------------------------------------------
  // generate

  /** The authority block builder after `--add-ttl` and `--root-key-id`. */
  function AuthorityBuilder(c: Generate, lib: Library, b0: BiscuitBuilder): BiscuitBuilder {
    var b1 := if c.addTtl.Some? then lib.checkExpiration(b0, lib.expiration(c.addTtl.value)) else b0;
    if c.rootKeyId.Some? then lib.rootKeyId(b1, c.rootKeyId.value) else b1
  }

  /** `steps`, followed by the steps of `--add-ttl` and `--root-key-id` when given. */
  function AuthoritySteps(c: Generate, steps: seq<Step>): seq<Step> {
    var s := WithTtl(steps, c.addTtl);
    if c.rootKeyId.Some? then s + [AddRootKeyId] else s
  }

  function GenerateRun(c: Generate, lib: Library, before: seq<Step>): Run {
    var authorityFrom := AuthoritySource(c.authorityFile);
    var s0 := before + [ResolveSources];
    match SigningKeySource(c.privateKeyArgs)
    case Err(f) => Stop(s0, f)
    case Ok(keyFrom) =>
      var s1 := s0 + [ReadKey];
      match lib.readPrivateKey(keyFrom, c.privateKeyArgs.privateKeyAlgorithm)
      case Err(e) => Stop(s1, Failed(e))
      case Ok(pk) =>
        var root := lib.keyPairFrom(pk);
        var s2 := s1 + [DeriveKeyPair] + [ReadDatalog];
        match lib.readAuthority(authorityFrom, c.paramArg.param, c.context, lib.biscuitBuilder)
        case Err(e) => Stop(s2, Failed(e))
        case Ok(b0) =>
          var s3 := AuthoritySteps(c, s2) + [Sign];
          match lib.build(AuthorityBuilder(c, lib, b0), root)
          case Err(_) => Stop(s3, Panic(BuildPanicMessage))
          case Ok(token) => Serialized(s3, c.raw, lib.biscuitToVec, lib.biscuitToBase64, token, true)
  }

  // ---------------------------------------------------------------------------
  // attenuate

  function AttenuateRun(c: Attenuate, lib: Library, before: seq<Step>): Run {
    var biscuitFrom := TokenSource(c.biscuitInputArgs);
    var s0 := before + [ResolveSources];
    match BlockSource(c.blockArgs)
    case Err(f) => Stop(s0, f)
    case Ok(blockFrom) =>
      var s1 := s0 + [CheckConflict];
      match lib.noInputConflict(blockFrom, biscuitFrom)
      case Err(e) => Stop(s1, Failed(e))
      case Ok(_) =>
        var s2 := s1 + [ReadToken];
        match lib.readBiscuit(biscuitFrom)
        case Err(e) => Stop(s2, Failed(e))
        case Ok(token) =>
          var s3 := s2 + [ReadDatalog];
          match lib.readBlock(blockFrom, c.paramArg.param, c.blockArgs.context, lib.blockBuilder)
          case Err(e) => Stop(s3, Failed(e))
          case Ok(b0) =>
            var b1 := BlockWithTtl(lib, b0, c.blockArgs.addTtl);
            var s4 := WithTtl(s3, c.blockArgs.addTtl) + [Append];
            match lib.append(token, b1)
            case Err(e) => Stop(s4, Failed(e))
            case Ok(t) => Serialized(s4, c.rawOutput, lib.biscuitToVec, lib.biscuitToBase64, t, false)
  }

  // ---------------------------------------------------------------------------
  // generate-third-party-block-request

  function GenerateRequestRun(c: GenerateThirdPartyBlockRequest, lib: Library, before: seq<Step>): Run {
    var biscuitFrom := TokenSource(c.biscuitInputArgs);
    var s0 := before + [ResolveSources] + [ReadToken];
    match lib.readBiscuit(biscuitFrom)
    case Err(e) => Stop(s0, Failed(e))
    case Ok(token) =>
      var s1 := s0 + [MakeRequest];
      match lib.thirdPartyRequest(token)
      case Err(e) => Stop(s1, Failed(e))
      case Ok(request) =>
        Serialized(s1, c.rawOutput, lib.requestSerialize, lib.requestSerializeBase64, request, false)
  }

  // ---------------------------------------------------------------------------
  // generate-third-party-block

  /**
   * The signing key is read right after the conflict check, but a failure to
   * read it is reported only when the block is signed, after the request and
   * the block have been read.
   */
  function GenerateThirdPartyBlockRun(c: GenerateThirdPartyBlock, lib: Library, before: seq<Step>): Run {
    var requestFrom := FileSource(c.requestFile, c.rawInput);
    var s0 := before + [ResolveSources];
    match BlockSource(c.blockArgs)
    case Err(f) => Stop(s0, f)
    case Ok(blockFrom) =>
      var s1 := s0 + [CheckConflict];
      match lib.noInputConflict(blockFrom, requestFrom)
      case Err(e) => Stop(s1, Failed(e))
      case Ok(_) =>
        match SigningKeySource(c.privateKeyArgs)
        case Err(f) => Stop(s1, f)
        case Ok(keyFrom) =>
          var key := lib.readPrivateKey(keyFrom, c.privateKeyArgs.privateKeyAlgorithm);
          var s2 := s1 + [ReadKey] + [ReadRequest];
          match lib.readRequest(requestFrom)
          case Err(e) => Stop(s2, Failed(e))
          case Ok(request) => ThirdPartyBlockCreated(c, lib, blockFrom, key, request, s2)
  }

  /** The second half of `generate-third-party-block`: read the block, then sign it with the key read earlier. */
  function ThirdPartyBlockCreated(c: GenerateThirdPartyBlock, lib: Library, blockFrom: DatalogInput,
                                  key: Result<PrivateKey, Reason>, request: Request, steps: seq<Step>): Run {
    var s0 := steps + [ReadDatalog];
    match lib.readBlock(blockFrom, c.paramArg.param, c.blockArgs.context, lib.blockBuilder)
    case Err(e) => Stop(s0, Failed(e))
    case Ok(b0) =>
      var s1 := WithTtl(s0, c.blockArgs.addTtl);
      match key
      case Err(e) => Stop(s1, Failed(e))
      case Ok(pk) =>
        var s2 := s1 + [CreateBlock];
        match lib.createBlock(request, pk, BlockWithTtl(lib, b0, c.blockArgs.addTtl))
        case Err(e) => Stop(s2, Failed(e))
        case Ok(block) => Serialized(s2, c.rawOutput, lib.blockSerialize, lib.blockSerializeBase64, block, false)
  }

  // ---------------------------------------------------------------------------
  // append-third-party-block

  function AppendThirdPartyBlockRun(c: AppendThirdPartyBlock, lib: Library, before: seq<Step>): Run {
    var biscuitFrom := TokenSource(c.biscuitInputArgs);
    var s0 := before + [ResolveSources];
    match ThirdPartyBlockSource(c)
    case Err(f) => Stop(s0, f)
    case Ok(blockFrom) =>
      var s1 := s0 + [CheckConflict];
      match lib.noInputConflictThirdParty(blockFrom, biscuitFrom)
      case Err(e) => Stop(s1, Failed(e))
      case Ok(_) =>
        var s2 := s1 + [ReadToken];
        match lib.readBiscuit(biscuitFrom)
        case Err(e) => Stop(s2, Failed(e))
        case Ok(token) =>
          var s3 := s2 + [AppendThirdParty];
          match lib.appendThirdPartyFrom(token, blockFrom)
          case Err(e) => Stop(s3, Failed(e))
          case Ok(t) => Serialized(s3, c.rawOutput, lib.biscuitToVec, lib.biscuitToBase64, t, false)
  }

  // ---------------------------------------------------------------------------
  // seal

  function SealRun(c: Seal, lib: Library, before: seq<Step>): Run {
    var biscuitFrom := TokenSource(c.biscuitInputArgs);
    var s0 := before + [ResolveSources] + [ReadToken];
    match lib.readBiscuit(biscuitFrom)
    case Err(e) => Stop(s0, Failed(e))
    case Ok(token) =>
      var s1 := s0 + [SealToken];
      match lib.seal(token)
      case Err(e) => Stop(s1, Failed(e))
      case Ok(t) => Serialized(s1, c.rawOutput, lib.biscuitToVec, lib.biscuitToBase64, t, false)
  }

  // ---------------------------------------------------------------------------
  // dispatch

  function Inspection(r: Result<(), Reason>, before: seq<Step>): Run {
    match r
    case Ok(_) => Run(before + [RunInspection], [], Ok(()))
    case Err(e) => Stop(before + [RunInspection], Failed(e))
  }

  function CommandRun(cmd: SubCommand, lib: Library, before: seq<Step>): Run {
    match cmd
    case KeyPairCmd(c) => KeyPairRun(c, lib, before)
    case Inspect(c) => Inspection(lib.inspect(c), before)
    case InspectSnapshot(c) => Inspection(lib.inspectSnapshot(c), before)
    case Generate(c) => GenerateRun(c, lib, before)
    case Attenuate(c) => AttenuateRun(c, lib, before)
    case GenerateThirdPartyBlockRequest(c) => GenerateRequestRun(c, lib, before)
    case GenerateThirdPartyBlock(c) => GenerateThirdPartyBlockRun(c, lib, before)
    case AppendThirdPartyBlock(c) => AppendThirdPartyBlockRun(c, lib, before)
    case Seal(c) => SealRun(c, lib, before)
  }

  /** The raw-output flag of the subcommands that write a token, request or block. */
  function RawOutputFlag(cmd: SubCommand): Option<bool> {
    match cmd
    case Generate(c) => Some(c.raw)
    case Attenuate(c) => Some(c.rawOutput)
    case GenerateThirdPartyBlockRequest(c) => Some(c.rawOutput)
    case GenerateThirdPartyBlock(c) => Some(c.rawOutput)
    case AppendThirdPartyBlock(c) => Some(c.rawOutput)
    case Seal(c) => Some(c.rawOutput)
    case _ => None
  }

  // ---------------------------------------------------------------------------
  // Properties of the pipeline

  /**
   * On success `run` wrote one chunk, serialised as `raw` asks by the step
   * just before the write; on failure it wrote nothing.
   */
  predicate WritesSerialisation(run: Run, raw: bool) {
    && (run.outcome.Ok? ==>
          && |run.out| == 1 && (run.out[0].Bytes? <==> raw)
          && |run.steps| >= 2 && run.steps[|run.steps| - 2] == Serialize(raw) && run.steps[|run.steps| - 1] == Write)
    && (run.outcome.Err? ==> run.out == [])
  }

  /** Every step that consumes an input comes after a conflict check. */
  predicate CheckedBeforeReads(steps: seq<Step>) {
    forall i :: 0 <= i < |steps| && steps[i].IsRead() ==> CheckConflict in steps[..i]
  }

  /** A run that resolves its sources and then checks for conflicts reads nothing before the check. */
  lemma {:induction false} CheckFirstIsChecked(steps: seq<Step>)
    requires |steps| >= 1 && steps[0] == ResolveSources
    requires |steps| >= 2 ==> steps[1] == CheckConflict
    ensures CheckedBeforeReads(steps)
  {
    forall i | 0 <= i < |steps| && steps[i].IsRead()
      ensures CheckConflict in steps[..i]
    {
      assert i >= 2;
      assert steps[..i][1] == CheckConflict;
    }
  }

  /**
   * In `attenuate`, `generate-third-party-block` and `append-third-party-block`
   * the conflict check runs before any token, request, key, block or Datalog
   * input is read.
   */
  lemma ConflictCheckPrecedesReads(cmd: SubCommand, lib: Library)
    requires cmd.Attenuate? || cmd.GenerateThirdPartyBlock? || cmd.AppendThirdPartyBlock?
    ensures CheckedBeforeReads(CommandRun(cmd, lib, []).steps)
  {
    match cmd
    case Attenuate(c) => AttenuateChecksFirst(c, lib);
    case GenerateThirdPartyBlock(c) => ThirdPartyBlockChecksFirst(c, lib);
    case AppendThirdPartyBlock(c) => AppendThirdPartyBlockChecksFirst(c, lib);
  }

  /** `attenuate` checks before reading, and reads nothing when the check fails. */
  lemma AttenuateChecksFirst(c: Attenuate, lib: Library)
    ensures CheckedBeforeReads(AttenuateRun(c, lib, []).steps)
    ensures BlockSource(c.blockArgs).Ok?
            && lib.noInputConflict(BlockSource(c.blockArgs).value, TokenSource(c.biscuitInputArgs)).Err?
            ==> AttenuateRun(c, lib, []).steps == [ResolveSources, CheckConflict]
  {
    CheckFirstIsChecked(AttenuateRun(c, lib, []).steps);
  }

  /** `generate-third-party-block` checks before reading, and reads nothing when the check fails. */
  lemma ThirdPartyBlockChecksFirst(c: GenerateThirdPartyBlock, lib: Library)
    ensures CheckedBeforeReads(GenerateThirdPartyBlockRun(c, lib, []).steps)
    ensures BlockSource(c.blockArgs).Ok?
            && lib.noInputConflict(BlockSource(c.blockArgs).value, FileSource(c.requestFile, c.rawInput)).Err?
            ==> GenerateThirdPartyBlockRun(c, lib, []).steps == [ResolveSources, CheckConflict]
  {
    CheckFirstIsChecked(GenerateThirdPartyBlockRun(c, lib, []).steps);
  }

  /** `append-third-party-block` checks before reading, and reads nothing when the check fails. */
  lemma AppendThirdPartyBlockChecksFirst(c: AppendThirdPartyBlock, lib: Library)
    ensures CheckedBeforeReads(AppendThirdPartyBlockRun(c, lib, []).steps)
    ensures ThirdPartyBlockSource(c).Ok?
            && lib.noInputConflictThirdParty(ThirdPartyBlockSource(c).value, TokenSource(c.biscuitInputArgs)).Err?
            ==> AppendThirdPartyBlockRun(c, lib, []).steps == [ResolveSources, CheckConflict]
  {
    CheckFirstIsChecked(AppendThirdPartyBlockRun(c, lib, []).steps);
  }

  /**
   * Every subcommand that writes a token, request or block writes exactly one
   * chunk on success: the raw serialisation when its raw-output flag is set,
   * the base64 text otherwise, chosen by the serialisation step just before
   * the write. On failure it writes nothing.
   */
  lemma RawFlagSelectsSerialisation(cmd: SubCommand, lib: Library, before: seq<Step>)
    requires RawOutputFlag(cmd).Some?
    ensures WritesSerialisation(CommandRun(cmd, lib, before), RawOutputFlag(cmd).value)
  {
    match cmd
    case Generate(c) => GenerateSerialises(c, lib, before);
    case Attenuate(c) => AttenuateSerialises(c, lib, before);
    case GenerateThirdPartyBlockRequest(c) => RequestSerialises(c, lib, before);
    case GenerateThirdPartyBlock(c) => ThirdPartyBlockSerialises(c, lib, before);
    case AppendThirdPartyBlock(c) => AppendThirdPartyBlockSerialises(c, lib, before);
    case Seal(c) => SealSerialises(c, lib, before);
  }

  /**
   * On success `run` wrote exactly the encoding of `x`, the value the handler
   * produced; `x` then exists and encodes.
   */
  predicate WroteEncodingOf<T>(run: Run, raw: bool, toVec: T -> Result<seq<byte>, Reason>,
                               toBase64: T -> Result<string, Reason>, x: Result<T, Reason>) {
    run.outcome.Ok? ==>
      && x.Ok? && Encoding(raw, toVec, toBase64, x.value).Ok?
      && run.out == [Encoding(raw, toVec, toBase64, x.value).value]
  }

  /** `generate` writes the token built from the authority block and signed by the given key. */
  lemma GenerateSerialises(c: Generate, lib: Library, before: seq<Step>)
    ensures WritesSerialisation(GenerateRun(c, lib, before), c.raw)
    ensures var run := GenerateRun(c, lib, before);
            var from := SigningKeySource(c.privateKeyArgs);
            run.outcome.Ok? ==>
              && from.Ok?
              && (var key := lib.readPrivateKey(from.value, c.privateKeyArgs.privateKeyAlgorithm);
                  && key.Ok?
                  && (var b0 := lib.readAuthority(AuthoritySource(c.authorityFile), c.paramArg.param, c.context, lib.biscuitBuilder);
                      && b0.Ok?
                      && WroteEncodingOf(run, c.raw, lib.biscuitToVec, lib.biscuitToBase64,
                                         lib.build(AuthorityBuilder(c, lib, b0.value), lib.keyPairFrom(key.value)))))
  {
  }

  /** `attenuate` writes the token read with the new block appended. */
  lemma AttenuateSerialises(c: Attenuate, lib: Library, before: seq<Step>)
    ensures WritesSerialisation(AttenuateRun(c, lib, before), c.rawOutput)
    ensures var run := AttenuateRun(c, lib, before);
            var token := lib.readBiscuit(TokenSource(c.biscuitInputArgs));
            run.outcome.Ok? ==>
              && token.Ok? && BlockSource(c.blockArgs).Ok?
              && (var b0 := lib.readBlock(BlockSource(c.blockArgs).value, c.paramArg.param, c.blockArgs.context, lib.blockBuilder);
                  && b0.Ok?
                  && WroteEncodingOf(run, c.rawOutput, lib.biscuitToVec, lib.biscuitToBase64,
                                     lib.append(token.value, BlockWithTtl(lib, b0.value, c.blockArgs.addTtl))))
  {
  }

  /** `generate-third-party-block-request` writes the third-party request of the token read. */
  lemma RequestSerialises(c: GenerateThirdPartyBlockRequest, lib: Library, before: seq<Step>)
    ensures WritesSerialisation(GenerateRequestRun(c, lib, before), c.rawOutput)
    ensures var run := GenerateRequestRun(c, lib, before);
            var token := lib.readBiscuit(TokenSource(c.biscuitInputArgs));
            run.outcome.Ok? ==>
              && token.Ok?
              && WroteEncodingOf(run, c.rawOutput, lib.requestSerialize, lib.requestSerializeBase64,
                                 lib.thirdPartyRequest(token.value))
  {
  }

  /** `generate-third-party-block` writes the block created from the request read, signed by the given key. */
  lemma ThirdPartyBlockSerialises(c: GenerateThirdPartyBlock, lib: Library, before: seq<Step>)
    ensures WritesSerialisation(GenerateThirdPartyBlockRun(c, lib, before), c.rawOutput)
    ensures var run := GenerateThirdPartyBlockRun(c, lib, before);
            var from := SigningKeySource(c.privateKeyArgs);
            var request := lib.readRequest(FileSource(c.requestFile, c.rawInput));
            run.outcome.Ok? ==>
              && from.Ok? && BlockSource(c.blockArgs).Ok? && request.Ok?
              && (var key := lib.readPrivateKey(from.value, c.privateKeyArgs.privateKeyAlgorithm);
                  && key.Ok?
                  && (var b0 := lib.readBlock(BlockSource(c.blockArgs).value, c.paramArg.param, c.blockArgs.context, lib.blockBuilder);
                      && b0.Ok?
                      && WroteEncodingOf(run, c.rawOutput, lib.blockSerialize, lib.blockSerializeBase64,
                                         lib.createBlock(request.value, key.value, BlockWithTtl(lib, b0.value, c.blockArgs.addTtl)))))
  {
  }

  /** `append-third-party-block` writes the token read with the third-party block appended. */
  lemma AppendThirdPartyBlockSerialises(c: AppendThirdPartyBlock, lib: Library, before: seq<Step>)
    ensures WritesSerialisation(AppendThirdPartyBlockRun(c, lib, before), c.rawOutput)
    ensures var run := AppendThirdPartyBlockRun(c, lib, before);
            var token := lib.readBiscuit(TokenSource(c.biscuitInputArgs));
            run.outcome.Ok? ==>
              && token.Ok? && ThirdPartyBlockSource(c).Ok?
              && WroteEncodingOf(run, c.rawOutput, lib.biscuitToVec, lib.biscuitToBase64,
                                 lib.appendThirdPartyFrom(token.value, ThirdPartyBlockSource(c).value))
  {
  }

  /** `seal` writes the sealed token. */
  lemma SealSerialises(c: Seal, lib: Library, before: seq<Step>)
    ensures WritesSerialisation(SealRun(c, lib, before), c.rawOutput)
    ensures var run := SealRun(c, lib, before);
            var token := lib.readBiscuit(TokenSource(c.biscuitInputArgs));
            run.outcome.Ok? ==>
              && token.Ok?
              && WroteEncodingOf(run, c.rawOutput, lib.biscuitToVec, lib.biscuitToBase64, lib.seal(token.value))
  {
  }

  /**
   * A failed subcommand writes nothing, except `keypair` printing both keys
   * in PEM, which prints its header line before converting the keys; a
   * successful one other than the inspections writes something.
   */
  lemma FailureWritesNothing(cmd: SubCommand, lib: Library, before: seq<Step>)
    ensures var run := CommandRun(cmd, lib, before);
            run.outcome.Err? ==>
              run.out == []
              || (&& cmd.KeyPairCmd? && |run.out| == 1 && run.out[0].Text?
                  && cmd.keyPairCmd.keyOutputFormat == Pem
                  && !cmd.keyPairCmd.onlyPrivateKey && !cmd.keyPairCmd.onlyPublicKey)
    ensures var run := CommandRun(cmd, lib, before);
            run.outcome.Ok? && !cmd.Inspect? && !cmd.InspectSnapshot? ==> run.out != []
  {
    match cmd
    case KeyPairCmd(c) => KeyPairWritesOnSuccess(c, lib, before);
    case Inspect(_) =>
    case InspectSnapshot(_) =>
    case _ => RawFlagSelectsSerialisation(cmd, lib, before);
  }

  /** `keypair` writes something when it succeeds, and at most the PEM header line when it fails. */
  lemma KeyPairWritesOnSuccess(c: KeyPairCmd, lib: Library, before: seq<Step>)
    ensures var run := KeyPairRun(c, lib, before);
            run.outcome.Err? ==>
              run.out == []
              || (|run.out| == 1 && run.out[0].Text? && c.keyOutputFormat == Pem && !c.onlyPrivateKey && !c.onlyPublicKey)
    ensures var run := KeyPairRun(c, lib, before);
            run.outcome.Ok? ==> run.out != []
  {
    var s0 := before + [ResolveSources];
    match KeyPairKeySource(c)
    case Err(_) =>
    case Ok(None) =>
      KeyPairPrintsOnSuccess(c, lib, s0 + [GenerateKeyPair], false, lib.newKeyPair(c.keyAlgorithm.Or(DefaultAlgorithm)));
    case Ok(Some(k)) =>
      match lib.readPrivateKey(k, c.fromAlgorithm)
      case Err(_) =>
      case Ok(pk) => KeyPairPrintsOnSuccess(c, lib, s0 + [ReadKey] + [DeriveKeyPair], true, lib.keyPairFrom(pk));
  }

  /** The output stage of `keypair` writes something when it succeeds, and at most the PEM header when it fails. */
  lemma KeyPairPrintsOnSuccess(c: KeyPairCmd, lib: Library, steps: seq<Step>, provided: bool, kp: KeyPair)
    ensures var run := KeyPairPrinted(c, lib, steps, provided, kp);
            run.outcome.Err? ==>
              run.out == []
              || (|run.out| == 1 && run.out[0].Text? && c.keyOutputFormat == Pem && !c.onlyPrivateKey && !c.onlyPublicKey)
    ensures var run := KeyPairPrinted(c, lib, steps, provided, kp);
            run.outcome.Ok? ==> run.out != []
  {
  }

  /**
   * `keypair` reads a private key exactly when one is given and accepted, and
   * generates a fresh key pair exactly when no key input is given.
   */
  lemma KeyPairReadsKeyIffGiven(c: KeyPairCmd, lib: Library)
    ensures ReadKey in KeyPairRun(c, lib, []).steps <==> KeyPairKeySource(c).Ok? && KeyPairKeySource(c).value.Some?
    ensures GenerateKeyPair in KeyPairRun(c, lib, []).steps <==> c.fromPrivateKey.None? && c.fromFile.None?
  {
    var s0 := [] + [ResolveSources];
    assert s0 == [ResolveSources];
    match KeyPairKeySource(c)
    case Err(_) =>
    case Ok(None) =>
      var s1 := s0 + [GenerateKeyPair];
      assert s1 == [ResolveSources, GenerateKeyPair];
      PrintingOnlyWrites(c, lib, s1, false, lib.newKeyPair(c.keyAlgorithm.Or(DefaultAlgorithm)));
    case Ok(Some(k)) =>
      var s1 := s0 + [ReadKey];
      assert s1 == [ResolveSources, ReadKey];
      match lib.readPrivateKey(k, c.fromAlgorithm)
      case Err(_) =>
      case Ok(pk) =>
        assert s1 + [DeriveKeyPair] == [ResolveSources, ReadKey, DeriveKeyPair];
        PrintingOnlyWrites(c, lib, s1 + [DeriveKeyPair], true, lib.keyPairFrom(pk));
  }

  /** The output stage of `keypair` only adds writes to the steps before it. */
  lemma PrintingOnlyWrites(c: KeyPairCmd, lib: Library, steps: seq<Step>, provided: bool, kp: KeyPair)
    ensures var run := KeyPairPrinted(c, lib, steps, provided, kp);
            forall s :: s != Write ==> (s in run.steps <==> s in steps)
  {
  }

  /**
   * `keypair` with a fresh key in PEM prints its header even when the PEM
   * conversion of the private or of the public key fails.
   */
  lemma PemHeaderBeforeFailure(c: KeyPairCmd, lib: Library, before: seq<Step>)
    requires c.fromPrivateKey.None? && c.fromFile.None?
    requires !c.onlyPrivateKey && !c.onlyPublicKey && c.keyOutputFormat == Pem
    requires var kp := lib.newKeyPair(c.keyAlgorithm.Or(DefaultAlgorithm));
             lib.privatePem(kp).Err? || lib.publicPem(kp).Err?
    ensures KeyPairRun(c, lib, before).outcome.Err?
    ensures KeyPairRun(c, lib, before).out == [Text("Generating a new random keypair\n")]
  {
    assert KeyPairKeySource(c) == Ok(None);
    assert KeyPairOutput(false, false, Pem) == Ok(BothPem);
    assert PemHeader(false) + "\n" == "Generating a new random keypair\n";
  }

  /**
   * `keypair --only-private-key --key-output-format raw` writes the private key
   * bytes of the key pair it made, and nothing else: the fresh pair when no key
   * is given, the pair derived from the key read otherwise.
   */
  lemma PrivateRawIsBytesOnly(c: KeyPairCmd, lib: Library, before: seq<Step>)
    requires c.onlyPrivateKey && !c.onlyPublicKey && c.keyOutputFormat == Raw
    ensures var run := KeyPairRun(c, lib, before);
            var from := KeyPairKeySource(c);
            run.outcome.Ok? ==>
              && from.Ok?
              && (from.value.None? ==>
                    run.out == [Bytes(lib.privateBytes(lib.newKeyPair(c.keyAlgorithm.Or(DefaultAlgorithm))))])
              && (from.value.Some? ==>
                    && lib.readPrivateKey(from.value.value, c.fromAlgorithm).Ok?
                    && run.out == [Bytes(lib.privateBytes(lib.keyPairFrom(lib.readPrivateKey(from.value.value, c.fromAlgorithm).value)))])
  {
    var run := KeyPairRun(c, lib, before);
    if run.outcome.Ok? {
      assert KeyPairOutput(true, false, Raw) == Ok(PrivateRaw);
      var from := KeyPairKeySource(c);
      assert from.Ok?;
      if from.value.None? {
        var kp := lib.newKeyPair(c.keyAlgorithm.Or(DefaultAlgorithm));
        assert run.out == KeyPairWrites(before + [ResolveSources] + [GenerateKeyPair], PrivateRaw, false, kp, lib).out;
      } else {
        var key := lib.readPrivateKey(from.value.value, c.fromAlgorithm);
        assert key.Ok?;
        var kp := lib.keyPairFrom(key.value);
        assert run.out == KeyPairWrites(before + [ResolveSources] + [ReadKey] + [DeriveKeyPair], PrivateRaw, true, kp, lib).out;
      }
    }
  }

  /**
   * `keypair` refuses to print both keys in raw form only after it has read
   * the private key it was given, so a key piped on stdin is consumed first.
   */
  lemma BinaryBothKeysRefusedAfterReading(c: KeyPairCmd, lib: Library)
    requires c.ValidIntended() && c.fromFile.Some?
    requires !c.onlyPrivateKey && !c.onlyPublicKey && c.keyOutputFormat == Raw
    ensures var run := KeyPairRun(c, lib, []);
            run.outcome.Err? && run.out == [] && run.steps[..2] == [ResolveSources, ReadKey]
  {
  }

  /** What the flag parser lets through never reaches an `unreachable!()` arm of the handlers. */
  lemma HandlersNeverReachUnreachable(cmd: SubCommand, lib: Library, before: seq<Step>)
    requires cmd.Valid()
    ensures CommandRun(cmd, lib, before).outcome != Err(Unreachable)
  {
    match cmd
    case KeyPairCmd(c) => KeyPairNeverUnreachable(c, lib, before);
    case Generate(c) => GenerateNeverUnreachable(c, lib, before);
    case GenerateThirdPartyBlock(c) => ThirdPartyBlockNeverUnreachable(c, lib, before);
    case AppendThirdPartyBlock(c) => AppendThirdPartyBlockNeverUnreachable(c, lib, before);
    case _ =>
  }

  lemma KeyPairNeverUnreachable(c: KeyPairCmd, lib: Library, before: seq<Step>)
    requires c.Valid()
    ensures KeyPairRun(c, lib, before).outcome != Err(Unreachable)
  {
    ValidIsIntended(c);
    KeyPairKeySourceDefined(c);
  }

  lemma GenerateNeverUnreachable(c: Generate, lib: Library, before: seq<Step>)
    requires c.Valid()
    ensures GenerateRun(c, lib, before).outcome != Err(Unreachable)
  {
    SigningKeySourceCorrects(c.privateKeyArgs);
  }

  lemma ThirdPartyBlockNeverUnreachable(c: GenerateThirdPartyBlock, lib: Library, before: seq<Step>)
    requires c.Valid()
    ensures GenerateThirdPartyBlockRun(c, lib, before).outcome != Err(Unreachable)
  {
    SigningKeySourceCorrects(c.privateKeyArgs);
  }

  lemma AppendThirdPartyBlockNeverUnreachable(c: AppendThirdPartyBlock, lib: Library, before: seq<Step>)
    requires c.Valid()
    ensures AppendThirdPartyBlockRun(c, lib, before).outcome != Err(Unreachable)
  {
    ThirdPartyBlockSourceDefined(c);
  }

  /**
   * In `generate-third-party-block`, a signing key that cannot be read is
   * reported only after the request and the block have been read; an error
   * reading either of those is reported instead.
   */
  lemma SigningKeyFailureReportedLast(c: GenerateThirdPartyBlock, lib: Library)
    requires BlockSource(c.blockArgs).Ok?
    requires lib.noInputConflict(BlockSource(c.blockArgs).value, FileSource(c.requestFile, c.rawInput)).Ok?
    requires SigningKeySource(c.privateKeyArgs).Ok?
    requires lib.readPrivateKey(SigningKeySource(c.privateKeyArgs).value, c.privateKeyArgs.privateKeyAlgorithm).Err?
    ensures var run := GenerateThirdPartyBlockRun(c, lib, []);
            run.outcome.Err? && run.out == [] && ReadRequest in run.steps && CreateBlock !in run.steps
    ensures var run := GenerateThirdPartyBlockRun(c, lib, []);
            var request := lib.readRequest(FileSource(c.requestFile, c.rawInput));
            request.Err? ==> run.outcome == Err(Failed(request.error))
    ensures var run := GenerateThirdPartyBlockRun(c, lib, []);
            var key := lib.readPrivateKey(SigningKeySource(c.privateKeyArgs).value, c.privateKeyArgs.privateKeyAlgorithm);
            var request := lib.readRequest(FileSource(c.requestFile, c.rawInput));
            var block := lib.readBlock(BlockSource(c.blockArgs).value, c.paramArg.param, c.blockArgs.context, lib.blockBuilder);
            request.Ok? && block.Ok? ==> run.outcome == Err(Failed(key.error)) && ReadDatalog in run.steps
  {
    var run := GenerateThirdPartyBlockRun(c, lib, []);
    var key := lib.readPrivateKey(SigningKeySource(c.privateKeyArgs).value, c.privateKeyArgs.privateKeyAlgorithm);
    var s2 := [] + [ResolveSources] + [CheckConflict] + [ReadKey] + [ReadRequest];
    assert s2 == [ResolveSources, CheckConflict, ReadKey, ReadRequest];
    assert CreateBlock !in s2 && ReadRequest in s2;
    var request := lib.readRequest(FileSource(c.requestFile, c.rawInput));
    if request.Err? {
      assert run == Stop(s2, Failed(request.error));
    } else {
      var blockFrom := BlockSource(c.blockArgs).value;
      assert run == ThirdPartyBlockCreated(c, lib, blockFrom, key, request.value, s2);
      UnreadableKeyStopsBeforeSigning(c, lib, blockFrom, key, request.value, s2);
      assert run.steps[3] == ReadRequest;
    }
  }

  /** Once the request is read, an unreadable signing key stops the run before any block is created. */
  lemma UnreadableKeyStopsBeforeSigning(c: GenerateThirdPartyBlock, lib: Library, blockFrom: DatalogInput,
                                        key: Result<PrivateKey, Reason>, request: Request, steps: seq<Step>)
    requires key.Err?
    ensures var run := ThirdPartyBlockCreated(c, lib, blockFrom, key, request, steps);
            && run.outcome.Err? && run.out == [] && steps <= run.steps && ReadDatalog in run.steps
            && (CreateBlock !in steps ==> CreateBlock !in run.steps)
    ensures var run := ThirdPartyBlockCreated(c, lib, blockFrom, key, request, steps);
            lib.readBlock(blockFrom, c.paramArg.param, c.blockArgs.context, lib.blockBuilder).Ok?
            ==> run.outcome == Err(Failed(key.error))
  {
    var s0 := steps + [ReadDatalog];
    assert s0[|steps|] == ReadDatalog;
    var s1 := WithTtl(s0, c.blockArgs.addTtl);
    assert s1[|steps|] == ReadDatalog;
  }
}
