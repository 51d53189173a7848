/**
 * The decision tables of the handlers: which input source each option record
 * selects, and which output shape `keypair` writes. Each is a single `match`
 * in the handlers; combinations the flag parser is trusted to refuse end in
 * `Fault.Unreachable`.
 */
module Sources {
  import opened Results
  import opened Paths
  import opened Input
  import opened Errors
  import opened Cli

  /**
   * `k` carries exactly the key input given by a literal, a file and a format.
   * When `stdinSentinel` holds, a file equal to `-` means standard input;
   * otherwise every file, `-` included, is opened as a file.
   */
  predicate Carries(k: KeyBytes, literal: Option<string>, file: Option<Path>, format: KeyFormat, stdinSentinel: bool) {
    match k
    case HexString(s) => literal == Some(s) && file.None? && format == Hex
    case PemString(s) => literal == Some(s) && file.None? && format == Pem
    case FromStdin(f) => stdinSentinel && literal.None? && file.Some? && IsStdinPath(file.value) && f == format
    case FromFile(f, p) => literal.None? && file == Some(p) && (stdinSentinel ==> !IsStdinPath(p)) && f == format
  }

  // ---------------------------------------------------------------------------
  // keypair

  /** The private key input of `keypair`: none (a fresh key is generated), or exactly the one given. */
  function KeyPairKeySource(c: KeyPairCmd): (r: Result<Option<KeyBytes>, Fault>)
    ensures r == Err(Bail(RawKeyLiteralMessage)) <==> c.fromPrivateKey.Some? && c.KeyInputFormat() == Raw
    ensures r == Err(Unreachable) <==> c.fromPrivateKey.Some? && c.fromFile.Some? && c.KeyInputFormat() != Raw
    ensures r == Ok(None) <==> c.fromPrivateKey.None? && c.fromFile.None?
    ensures r.Err? ==> r == Err(Bail(RawKeyLiteralMessage)) || r == Err(Unreachable)
    ensures r.Ok? && r.value.Some? ==> Carries(r.value.value, c.fromPrivateKey, c.fromFile, c.KeyInputFormat(), true)
  {
    match (c.fromPrivateKey, c.fromFile, c.KeyInputFormat())
    case (Some(_), _, Raw) => Err(Bail(RawKeyLiteralMessage))
    case (Some(s), None, Hex) => Ok(Some(KeyBytes.HexString(s)))
    case (Some(s), None, Pem) => Ok(Some(KeyBytes.PemString(s)))
    case (None, Some(path), f) =>
      if IsStdinPath(path) then Ok(Some(KeyBytes.FromStdin(f))) else Ok(Some(KeyBytes.FromFile(f, path)))
    case (None, None, _) => Ok(None)
    case _ => Err(Unreachable)
  }

  /** Whatever the flag parser lets through, the catch-all arm of the keypair key match is dead. */
  lemma KeyPairKeySourceDefined(c: KeyPairCmd)
    requires c.ValidIntended()
    ensures KeyPairKeySource(c) != Err(Unreachable)
    ensures c.fromPrivateKey.Some? && c.KeyInputFormat() == Raw ==> KeyPairKeySource(c).Err?
    ensures c.fromPrivateKey.Some? && c.KeyInputFormat() != Raw ==>
              KeyPairKeySource(c).Ok? && KeyPairKeySource(c).value.Some?
    ensures c.fromFile.Some? ==> KeyPairKeySource(c).Ok? && KeyPairKeySource(c).value.Some?
  {
  }

  /**
   * What the declared constraints leave of `keypair`: a fresh key pair (the
   * only mode in which `--key-algorithm` may be written), a literal key, which
   * is always read as hex since `--from-format` cannot be written, or a key
   * file in hex (the only mode in which `--from-algorithm` may be written).
   * Both only-flags together never reach the output table.
   */
  lemma KeyPairModes(c: KeyPairCmd)
    requires c.Valid()
    ensures c.keyAlgorithm.Given? ==> KeyPairKeySource(c) == Ok(None)
    ensures c.fromPrivateKey.Some? ==> KeyPairKeySource(c) == Ok(Some(KeyBytes.HexString(c.fromPrivateKey.value)))
    ensures c.fromFile.Some? ==>
              KeyPairKeySource(c) == Ok(Some(KeyBytes.FromStdin(Hex)))
              || KeyPairKeySource(c) == Ok(Some(KeyBytes.FromFile(Hex, c.fromFile.value)))
    ensures c.fromAlgorithm.Some? ==>
              KeyPairKeySource(c).Ok? && KeyPairKeySource(c).value.Some?
              && (KeyPairKeySource(c).value.value.FromStdin? || KeyPairKeySource(c).value.value.FromFile?)
    ensures KeyPairOutput(c.onlyPrivateKey, c.onlyPublicKey, c.keyOutputFormat) != Err(Unreachable)
  {
  }

  /** Keypair outputs: both keys, only the private key, or only the public key, each in one format. */
  datatype KeyOutput =
    | BothHex | BothPem
    | PrivateRaw | PrivateHex | PrivatePem
    | PublicRaw | PublicHex | PublicPem
  {
    function Format(): KeyFormat {
      match this
      case PrivateRaw | PublicRaw => Raw
      case BothHex | PrivateHex | PublicHex => Hex
      case BothPem | PrivatePem | PublicPem => Pem
    }
    predicate HasPrivate() { !(PublicRaw? || PublicHex? || PublicPem?) }
    predicate HasPublic() { !(PrivateRaw? || PrivateHex? || PrivatePem?) }
  }

  /** The keypair output table on (only-private, only-public, format). */
  function KeyPairOutput(onlyPrivate: bool, onlyPublic: bool, format: KeyFormat): (r: Result<KeyOutput, Fault>)
    ensures r == Err(Bail(BinaryKeyPairMessage)) <==> !onlyPrivate && !onlyPublic && format == Raw
    ensures r == Err(Unreachable) <==> onlyPrivate && onlyPublic
    ensures r.Err? ==> r == Err(Bail(BinaryKeyPairMessage)) || r == Err(Unreachable)
    ensures r.Ok? ==> r.value.Format() == format && r.value.HasPrivate() == !onlyPublic && r.value.HasPublic() == !onlyPrivate
  {
    match (onlyPrivate, onlyPublic, format)
    case (false, false, Raw) => Err(Bail(BinaryKeyPairMessage))
    case (false, false, Hex) => Ok(BothHex)
    case (false, false, Pem) => Ok(BothPem)
    case (true, false, Raw) => Ok(PrivateRaw)
    case (true, false, Hex) => Ok(PrivateHex)
    case (true, false, Pem) => Ok(PrivatePem)
    case (false, true, Raw) => Ok(PublicRaw)
    case (false, true, Hex) => Ok(PublicHex)
    case (false, true, Pem) => Ok(PublicPem)
    case _ => Err(Unreachable)
  }

  /**
   * Under the flag parser, every triple but "both keys in raw" selects an
   * output, and distinct triples select distinct outputs.
   */
  lemma KeyPairOutputDefined(c: KeyPairCmd, d: KeyPairCmd)
    requires c.ValidIntended() && d.ValidIntended()
    ensures var r := KeyPairOutput(c.onlyPrivateKey, c.onlyPublicKey, c.keyOutputFormat);
            r.Ok? || r == Err(Bail(BinaryKeyPairMessage))
    ensures var r := KeyPairOutput(c.onlyPrivateKey, c.onlyPublicKey, c.keyOutputFormat);
            var s := KeyPairOutput(d.onlyPrivateKey, d.onlyPublicKey, d.keyOutputFormat);
            r.Ok? && s.Ok? && r.value == s.value ==>
              c.onlyPrivateKey == d.onlyPrivateKey && c.onlyPublicKey == d.onlyPublicKey && c.keyOutputFormat == d.keyOutputFormat
  {
  }

  // ---------------------------------------------------------------------------
  // signing keys of generate and generate-third-party-block

  /** The signing key match of `generate`, as written: a literal key in raw format falls to the catch-all arm. */
  function GenerateKeySourceAsWritten(a: PrivateKeyArgs): (r: Result<KeyBytes, Fault>)
    ensures r.Err? ==> r.error == Unreachable
    ensures r.Ok? ==> Carries(r.value, a.privateKey, a.privateKeyFile, a.privateKeyFormat, false)
    ensures r.Err? <==> a.privateKey.Some? == a.privateKeyFile.Some? || (a.privateKey.Some? && a.privateKeyFormat == Raw)
  {
    match (a.privateKey, a.privateKeyFile, a.privateKeyFormat)
    case (Some(s), None, Hex) => Ok(KeyBytes.HexString(s))
    case (Some(s), None, Pem) => Ok(KeyBytes.PemString(s))
    case (None, Some(file), f) => Ok(KeyBytes.FromFile(f, file))
    case _ => Err(Unreachable)
  }

  /** The signing key match of `generate-third-party-block`, as written, with its separate raw-file arm. */
  function ThirdPartyKeySourceAsWritten(a: PrivateKeyArgs): (r: Result<KeyBytes, Fault>)
    ensures r == GenerateKeySourceAsWritten(a)
  {
    match (a.privateKey, a.privateKeyFile, a.privateKeyFormat)
    case (Some(hex), None, Hex) => Ok(KeyBytes.HexString(hex))
    case (Some(pem), None, Pem) => Ok(KeyBytes.PemString(pem))
    case (None, Some(file), Raw) => Ok(KeyBytes.FromFile(Raw, file))
    case (None, Some(file), f) => Ok(KeyBytes.FromFile(f, file))
    case _ => Err(Unreachable)
  }

  /** `generate --private-key K --private-key-format raw` passes the flag parser and reaches `unreachable!()`. */
  lemma LiteralRawKeyReachesUnreachable(key: string)
    ensures var a := PrivateKeyArgs(Some(key), None, Raw, None);
            a.Valid() && GenerateKeySourceAsWritten(a) == Err(Unreachable)
            && ThirdPartyKeySourceAsWritten(a) == Err(Unreachable)
  {
  }

  /**
   * The signing key match with a literal raw key refused as `keypair` refuses
   * it. The handlers of this model use it.
   */
  function SigningKeySource(a: PrivateKeyArgs): (r: Result<KeyBytes, Fault>)
    ensures r == Err(Bail(RawKeyLiteralMessage)) <==> a.privateKey.Some? && a.privateKeyFile.None? && a.privateKeyFormat == Raw
    ensures r == Err(Unreachable) <==> a.privateKey.Some? == a.privateKeyFile.Some?
    ensures r.Err? ==> r == Err(Bail(RawKeyLiteralMessage)) || r == Err(Unreachable)
    ensures r.Ok? ==> Carries(r.value, a.privateKey, a.privateKeyFile, a.privateKeyFormat, false)
  {
    match (a.privateKey, a.privateKeyFile, a.privateKeyFormat)
    case (Some(_), None, Raw) => Err(Bail(RawKeyLiteralMessage))
    case (Some(s), None, Hex) => Ok(KeyBytes.HexString(s))
    case (Some(s), None, Pem) => Ok(KeyBytes.PemString(s))
    case (None, Some(file), f) => Ok(KeyBytes.FromFile(f, file))
    case _ => Err(Unreachable)
  }

  /** The correction changes only the literal raw case, and leaves no reachable `unreachable!()`. */
  lemma SigningKeySourceCorrects(a: PrivateKeyArgs)
    ensures a.Valid() ==> SigningKeySource(a) != Err(Unreachable)
    ensures GenerateKeySourceAsWritten(a) != Err(Unreachable) ==> SigningKeySource(a) == GenerateKeySourceAsWritten(a)
    ensures a.Valid() && SigningKeySource(a).Err? ==> a.privateKey.Some? && a.privateKeyFormat == Raw
  {
  }

  // ---------------------------------------------------------------------------
  // tokens, requests and third-party blocks

  function FormatOf(raw: bool): (f: BiscuitFormat)
    ensures f == RawBiscuit <==> raw
  {
    if raw then RawBiscuit else Base64Biscuit
  }

  /** A token or request file argument: `-` is stdin, anything else a file, raw exactly when the flag says so. */
  function FileSource(file: Path, raw: bool): (r: BiscuitBytes)
    ensures r.FromStdin? <==> IsStdinPath(file)
    ensures r.FromFile? <==> !IsStdinPath(file)
    ensures r.FromFile? ==> r.path == file
    ensures !r.Base64String? && (r.format == RawBiscuit <==> raw)
  {
    var format := FormatOf(raw);
    if IsStdinPath(file) then BiscuitBytes.FromStdin(format) else BiscuitBytes.FromFile(format, file)
  }

  function TokenSource(args: BiscuitInputArgs): BiscuitBytes {
    FileSource(args.biscuitFile, args.rawInput)
  }

  /** The third-party block of `append-third-party-block`: stdin, a file, or a base64 literal. */
  function ThirdPartyBlockSource(c: AppendThirdPartyBlock): (r: Result<BiscuitBytes, Fault>)
    ensures r.Err? <==> c.blockContentsFile.Some? == c.blockContents.Some?
    ensures r.Err? ==> r.error == Unreachable
    ensures r.Ok? && r.value.Base64String? ==> c.blockContents == Some(r.value.text)
    ensures r.Ok? && !r.value.Base64String? ==>
              c.blockContentsFile.Some? && r.value == FileSource(c.blockContentsFile.value, c.rawBlockContents)
  {
    var format := FormatOf(c.rawBlockContents);
    match (c.blockContentsFile, c.blockContents)
    case (Some(file), None) =>
      if IsStdinPath(file) then Ok(BiscuitBytes.FromStdin(format)) else Ok(BiscuitBytes.FromFile(format, file))
    case (None, Some(s)) => Ok(BiscuitBytes.Base64String(s))
    case _ => Err(Unreachable)
  }

  /** Under the flag parser the third-party block match is total, and a literal is never read raw. */
  lemma ThirdPartyBlockSourceDefined(c: AppendThirdPartyBlock)
    requires c.Valid()
    ensures ThirdPartyBlockSource(c).Ok?
    ensures ThirdPartyBlockSource(c).value.Base64String? ==> !c.rawBlockContents
  {
  }

  // ---------------------------------------------------------------------------
  // Datalog

  /** The authority block of `generate`: `-` is stdin, another path a file, none the editor. */
  function AuthoritySource(file: Option<Path>): (r: DatalogInput)
    ensures r.FromEditor? <==> file.None?
    ensures r.FromStdin? <==> file.Some? && IsStdinPath(file.value)
    ensures r.FromFile? ==> file == Some(r.path)
    ensures !r.DatalogString?
  {
    match file
    case Some(path) => if IsStdinPath(path) then DatalogInput.FromStdin else DatalogInput.FromFile(path)
    case None => DatalogInput.FromEditor
  }

  /** A new block: a file, a literal, or the editor when neither is given; `-` is never stdin here. */
  function BlockSource(b: BlockArgs): (r: Result<DatalogInput, Fault>)
    ensures r.Err? <==> !b.Valid()
    ensures r.Err? ==> r.error == Unreachable
    ensures r.Ok? ==> !r.value.FromStdin?
    ensures r.Ok? ==> (r.value.FromFile? <==> b.blockFile.Some?)
    ensures r.Ok? && r.value.FromFile? ==> b.blockFile == Some(r.value.path)
    ensures r.Ok? && r.value.DatalogString? ==> b.block == Some(r.value.source)
    ensures r == Ok(DatalogInput.FromEditor) <==> b.block.None? && b.blockFile.None?
  {
    match (b.blockFile, b.block)
    case (Some(file), None) => Ok(DatalogInput.FromFile(file))
    case (None, Some(s)) => Ok(DatalogInput.DatalogString(s))
    case (None, None) => Ok(DatalogInput.FromEditor)
    case _ => Err(Unreachable)
  }

  // ---------------------------------------------------------------------------
  // where `-` means standard input

  /**
   * `-` is standard input for the keypair key file, the authority file, token,
   * request and third-party block files; it is an ordinary file name for the
   * signing key file and the block file.
   */
  lemma StdinSentinelPerOption(f: KeyFormat, c: KeyPairCmd, a: PrivateKeyArgs, b: BlockArgs, d: AppendThirdPartyBlock)
    requires c.fromPrivateKey.None? && c.fromFile == Some("-") && c.KeyInputFormat() == f
    requires a.privateKey.None? && a.privateKeyFile == Some("-") && a.privateKeyFormat == f
    requires b.block.None? && b.blockFile == Some("-")
    requires d.blockContents.None? && d.blockContentsFile == Some("-")
    ensures KeyPairKeySource(c) == Ok(Some(KeyBytes.FromStdin(f)))
    ensures SigningKeySource(a) == Ok(KeyBytes.FromFile(f, "-"))
    ensures BlockSource(b) == Ok(DatalogInput.FromFile("-"))
    ensures AuthoritySource(Some("-")) == DatalogInput.FromStdin
    ensures forall raw: bool :: FileSource("-", raw) == BiscuitBytes.FromStdin(FormatOf(raw))
    ensures ThirdPartyBlockSource(d) == Ok(BiscuitBytes.FromStdin(FormatOf(d.rawBlockContents)))
  {
    StdinPathShape("-");
  }
}
