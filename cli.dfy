/**
 * The option records of every subcommand, and the combinations of options the
 * flag parser accepts. Each `Valid()` transcribes the parser's constraint
 * attributes one by one:
 *   - `conflicts_with(b)` on `a`: `a` and `b` are not both given;
 *   - `requires(b)` on `a`: if `a` is given then so is `b`;
 *   - `required_unless_present(b)` on `a`: `a` or `b` is given.
 * An option with a default value counts as given only when it is written on the
 * command line, so the two defaulted options that carry constraints are a
 * `Setting`; every other defaulted option is stored as its resulting value.
 */
module Cli {
  import opened Results
  import opened Paths
  import opened Input

  /** An option with a default: written on the command line, or left to its default. */
  datatype Setting<T> = Given(value: T) | Defaulted {
    function Or(default: T): T {
      match this
      case Given(v) => v
      case Defaulted => default
    }
  }

  /** `biscuit keypair`. */
  datatype KeyPairCmd = KeyPairCmd(
    fromPrivateKey: Option<string>,
    fromFile: Option<Path>,
    fromFormat: Setting<KeyFormat>,
    fromAlgorithm: Option<Algorithm>,
    keyAlgorithm: Setting<Algorithm>,
    keyOutputFormat: KeyFormat,
    onlyPublicKey: bool,
    onlyPrivateKey: bool)
  {
    /** The constraints as declared. */
    predicate Valid() {
      && !(fromPrivateKey.Some? && fromFile.Some?)
      && (fromFormat.Given? ==> fromPrivateKey.Some?)
      && (fromFormat.Given? ==> fromFile.Some?)
      && (fromAlgorithm.Some? ==> fromFile.Some?)
      && (keyAlgorithm.Given? ==> fromPrivateKey.None?)
      && (keyAlgorithm.Given? ==> fromFile.None?)
      && !(onlyPublicKey && onlyPrivateKey)
    }

    /**
     * The constraints with `--from-format` requiring either key input rather
     * than both of two options that exclude each other.
     */
    predicate ValidIntended() {
      && !(fromPrivateKey.Some? && fromFile.Some?)
      && (fromFormat.Given? ==> fromPrivateKey.Some? || fromFile.Some?)
      && (fromAlgorithm.Some? ==> fromFile.Some?)
      && (keyAlgorithm.Given? ==> fromPrivateKey.None?)
      && (keyAlgorithm.Given? ==> fromFile.None?)
      && !(onlyPublicKey && onlyPrivateKey)
    }

    /** The format the private key input is read in. */
    function KeyInputFormat(): KeyFormat {
      fromFormat.Or(DefaultKeyFormat)
    }
  }

  /** `biscuit generate`. */
  datatype Generate = Generate(
    authorityFile: Option<Path>,
    rootKeyId: Option<u32>,
    paramArg: ParamArg,
    raw: bool,
    privateKeyArgs: PrivateKeyArgs,
    context: Option<string>,
    addTtl: Option<Ttl>)
  {
    predicate Valid() { privateKeyArgs.Valid() }
  }

  /** `biscuit attenuate`. */
  datatype Attenuate = Attenuate(
    biscuitInputArgs: BiscuitInputArgs,
    rawOutput: bool,
    blockArgs: BlockArgs,
    paramArg: ParamArg)
  {
    predicate Valid() { blockArgs.Valid() }
  }

  /** `biscuit inspect`. */
  datatype Inspect = Inspect(
    json: bool,
    biscuitInputArgs: BiscuitInputArgs,
    publicKey: Option<string>,
    publicKeyFile: Option<Path>,
    publicKeyFormat: KeyFormat,
    publicKeyAlgorithm: Option<Algorithm>,
    runLimitsArgs: RunLimitArgs,
    authorizationArgs: AuthorizeArgs,
    queryArgs: QueryArgs,
    paramArg: ParamArg,
    dumpSnapshotTo: Option<Path>,
    dumpRawSnapshot: bool,
    dumpPoliciesSnapshotTo: Option<Path>,
    dumpRawPoliciesSnapshot: bool)
  {
    /** The constraints as declared: both raw-dump flags require `--dump-snapshot-to`. */
    predicate Valid() {
      && !(publicKey.Some? && publicKeyFile.Some?)
      && (publicKeyAlgorithm.Some? ==> publicKeyFile.Some?)
      && authorizationArgs.Valid()
      && queryArgs.Valid()
      && (dumpRawSnapshot ==> dumpSnapshotTo.Some?)
      && (dumpRawPoliciesSnapshot ==> dumpSnapshotTo.Some?)
    }

    /** The constraints with the raw policies flag requiring the policies dump it applies to. */
    predicate ValidIntended() {
      && !(publicKey.Some? && publicKeyFile.Some?)
      && (publicKeyAlgorithm.Some? ==> publicKeyFile.Some?)
      && authorizationArgs.Valid()
      && queryArgs.Valid()
      && (dumpRawSnapshot ==> dumpSnapshotTo.Some?)
      && (dumpRawPoliciesSnapshot ==> dumpPoliciesSnapshotTo.Some?)
    }
  }

  /** `biscuit inspect-snapshot`. */
  datatype InspectSnapshot = InspectSnapshot(
    json: bool,
    snapshotFile: Path,
    rawInput: bool,
    runLimitsArgs: RunLimitArgs,
    queryArgs: QueryArgs,
    paramArg: ParamArg)
  {
    predicate Valid() { queryArgs.Valid() }
  }

  /** `biscuit generate-third-party-block-request`. */
  datatype GenerateThirdPartyBlockRequest = GenerateThirdPartyBlockRequest(
    biscuitInputArgs: BiscuitInputArgs,
    rawOutput: bool)

  /** `biscuit generate-third-party-block`. */
  datatype GenerateThirdPartyBlock = GenerateThirdPartyBlock(
    requestFile: Path,
    rawInput: bool,
    privateKeyArgs: PrivateKeyArgs,
    rawOutput: bool,
    blockArgs: BlockArgs,
    paramArg: ParamArg)
  {
    predicate Valid() { privateKeyArgs.Valid() && blockArgs.Valid() }
  }

  /** `biscuit append-third-party-block`. */
  datatype AppendThirdPartyBlock = AppendThirdPartyBlock(
    biscuitInputArgs: BiscuitInputArgs,
    rawOutput: bool,
    blockContents: Option<string>,
    blockContentsFile: Option<Path>,
    rawBlockContents: bool)
  {
    predicate Valid() {
      && !(blockContentsFile.Some? && blockContents.Some?)
      && (blockContentsFile.Some? || blockContents.Some?)
      && (rawBlockContents ==> blockContentsFile.Some?)
    }
  }

  /** `biscuit seal`. */
  datatype Seal = Seal(
    biscuitInputArgs: BiscuitInputArgs,
    rawOutput: bool)

  /** `--query` and `--query-all`. */
  datatype QueryArgs = QueryArgs(query: Option<Rule>, queryAll: bool) {
    predicate Valid() { queryAll ==> query.Some? }
  }

  /** The repeated `--param` option. */
  datatype ParamArg = ParamArg(param: seq<Param>)

  /** `--max-facts`, `--max-iterations`, `--max-time`. */
  datatype RunLimitArgs = RunLimitArgs(
    maxFacts: Option<u64>,
    maxIterations: Option<u64>,
    maxTime: Option<Duration>)

  /** The five ways of supplying an authorizer to `inspect`. */
  datatype AuthorizerSource = Interactive | WithFile | WithDatalog | WithSnapshot | WithSnapshotFile

  /** Options that run authorization during `inspect`. */
  datatype AuthorizeArgs = AuthorizeArgs(
    authorizeInteractive: bool,
    authorizeWithFile: Option<Path>,
    authorizeWith: Option<string>,
    authorizeWithSnapshot: Option<string>,
    authorizeWithSnapshotFile: Option<Path>,
    authorizeWithRawSnapshotFile: bool,
    includeTime: bool)
  {
    predicate Valid() {
      // authorize_interactive
      && !(authorizeInteractive && authorizeWith.Some?)
      && !(authorizeInteractive && authorizeWithFile.Some?)
      && !(authorizeInteractive && authorizeWithSnapshot.Some?)
      && !(authorizeInteractive && authorizeWithSnapshotFile.Some?)
      // authorize_with_file
      && !(authorizeWithFile.Some? && authorizeWith.Some?)
      && !(authorizeWithFile.Some? && authorizeWithSnapshot.Some?)
      && !(authorizeWithFile.Some? && authorizeWithSnapshotFile.Some?)
      && !(authorizeWithFile.Some? && authorizeInteractive)
      // authorize_with
      && !(authorizeWith.Some? && authorizeWithFile.Some?)
      && !(authorizeWith.Some? && authorizeWithSnapshot.Some?)
      && !(authorizeWith.Some? && authorizeWithSnapshotFile.Some?)
      && !(authorizeWith.Some? && authorizeInteractive)
      // authorize_with_snapshot
      && !(authorizeWithSnapshot.Some? && authorizeWith.Some?)
      && !(authorizeWithSnapshot.Some? && authorizeWithFile.Some?)
      && !(authorizeWithSnapshot.Some? && authorizeWithSnapshotFile.Some?)
      && !(authorizeWithSnapshot.Some? && authorizeInteractive)
      // authorize_with_snapshot_file
      && !(authorizeWithSnapshotFile.Some? && authorizeWith.Some?)
      && !(authorizeWithSnapshotFile.Some? && authorizeWithFile.Some?)
      && !(authorizeWithSnapshotFile.Some? && authorizeWithSnapshot.Some?)
      && !(authorizeWithSnapshotFile.Some? && authorizeInteractive)
      // authorize_with_raw_snapshot_file
      && (authorizeWithRawSnapshotFile ==> authorizeWithSnapshotFile.Some?)
    }

    /** The authorizer sources given on the command line, in declaration order. */
    function Given(): seq<AuthorizerSource> {
      (if authorizeInteractive then [Interactive] else [])
      + (if authorizeWithFile.Some? then [WithFile] else [])
      + (if authorizeWith.Some? then [WithDatalog] else [])
      + (if authorizeWithSnapshot.Some? then [WithSnapshot] else [])
      + (if authorizeWithSnapshotFile.Some? then [WithSnapshotFile] else [])
    }
  }

  /** Options that describe a new block. */
  datatype BlockArgs = BlockArgs(
    block: Option<string>,
    blockFile: Option<Path>,
    context: Option<string>,
    addTtl: Option<Ttl>)
  {
    predicate Valid() { !(blockFile.Some? && block.Some?) }
  }

  /** The token argument and `--raw-input`. */
  datatype BiscuitInputArgs = BiscuitInputArgs(biscuitFile: Path, rawInput: bool)

  /** Options that supply a signing private key. */
  datatype PrivateKeyArgs = PrivateKeyArgs(
    privateKey: Option<string>,
    privateKeyFile: Option<Path>,
    privateKeyFormat: KeyFormat,
    privateKeyAlgorithm: Option<Algorithm>)
  {
    predicate Valid() {
      && (privateKey.Some? || privateKeyFile.Some?)
      && (privateKeyFile.Some? || privateKey.Some?)
      && !(privateKeyFile.Some? && privateKey.Some?)
      && (privateKeyAlgorithm.Some? ==> privateKeyFile.Some?)
    }
  }

  datatype SubCommand =
    | KeyPairCmd(keyPairCmd: KeyPairCmd)
    | Inspect(inspect: Inspect)
    | InspectSnapshot(inspectSnapshot: InspectSnapshot)
    | Generate(generate: Generate)
    | Attenuate(attenuate: Attenuate)
    | GenerateThirdPartyBlockRequest(generateRequest: GenerateThirdPartyBlockRequest)
    | GenerateThirdPartyBlock(generateThirdPartyBlock: GenerateThirdPartyBlock)
    | AppendThirdPartyBlock(appendThirdPartyBlock: AppendThirdPartyBlock)
    | Seal(seal: Seal)
  {
    /** What the flag parser lets through to the handlers. */
    predicate Valid() {
      match this
      case KeyPairCmd(c) => c.Valid()
      case Inspect(c) => c.Valid()
      case InspectSnapshot(c) => c.Valid()
      case Generate(c) => c.Valid()
      case Attenuate(c) => c.Valid()
      case GenerateThirdPartyBlockRequest(_) => true
      case GenerateThirdPartyBlock(c) => c.Valid()
      case AppendThirdPartyBlock(c) => c.Valid()
      case Seal(_) => true
    }
  }

  // ---------------------------------------------------------------------------
  // What the constraints add up to

  /** A signing key comes from exactly one of `--private-key` and `--private-key-file`; an algorithm only with a file. */
  lemma PrivateKeyExactlyOne(a: PrivateKeyArgs)
    ensures a.Valid() <==>
      (a.privateKey.Some? != a.privateKeyFile.Some?) && (a.privateKeyAlgorithm.Some? ==> a.privateKeyFile.Some?)
  {
  }

  /** A third-party block comes from exactly one of its two options; the raw flag only with the file. */
  lemma ThirdPartyBlockExactlyOne(c: AppendThirdPartyBlock)
    ensures c.Valid() <==>
      (c.blockContents.Some? != c.blockContentsFile.Some?) && (c.rawBlockContents ==> c.blockContentsFile.Some?)
  {
  }

  /** At most one of the five authorizer sources, and the raw flag only with a snapshot file. */
  lemma {:induction false} AuthorizerAtMostOne(a: AuthorizeArgs)
    ensures a.Valid() <==> |a.Given()| <= 1 && (a.authorizeWithRawSnapshotFile ==> WithSnapshotFile in a.Given())
  {
    var g := a.Given();
    if a.authorizeWithSnapshotFile.Some? {
      assert g[|g| - 1] == WithSnapshotFile;
    } else {
      assert WithSnapshotFile !in g;
    }
  }

  /**
   * A valid `inspect` gives at most one authorizer source. The first four
   * clauses are conjuncts of `Inspect.Valid`, listed here for reference.
   */
  lemma InspectPublicKeyAtMostOne(c: Inspect)
    requires c.Valid()
    ensures !(c.publicKey.Some? && c.publicKeyFile.Some?)
    ensures c.publicKeyAlgorithm.Some? ==> c.publicKeyFile.Some?
    ensures c.dumpRawSnapshot ==> c.dumpSnapshotTo.Some?
    ensures c.dumpRawPoliciesSnapshot ==> c.dumpSnapshotTo.Some?
    ensures |c.authorizationArgs.Given()| <= 1
  {
    AuthorizerAtMostOne(c.authorizationArgs);
  }

  // ---------------------------------------------------------------------------
  // `--from-format` requires two options that conflict

  /** As declared, `--from-format` can never be written: it would need both key inputs, which conflict. */
  lemma FromFormatNeverAccepted(c: KeyPairCmd)
    requires c.Valid()
    ensures c.fromFormat == Defaulted
  {
  }

  /** `keypair --from-file key.raw --from-format raw` is refused as declared and accepted as intended. */
  lemma FromFormatWithFileRefused()
    ensures var c := KeyPairCmd.KeyPairCmd(None, Some("key.raw"), Given(Raw), None, Defaulted, Hex, false, false);
            !c.Valid() && c.ValidIntended()
  {
  }

  /** The intended constraints accept everything the declared ones do, and an explicit format with either input. */
  lemma ValidIsIntended(c: KeyPairCmd)
    ensures c.Valid() ==> c.ValidIntended()
    ensures c.ValidIntended() && c.fromFormat.Given? ==> !c.Valid()
    ensures c.ValidIntended() && c.fromFormat.Defaulted? ==> c.Valid()
  {
  }

  // ---------------------------------------------------------------------------
  // `--dump-raw-policies-snapshot` requires the wrong dump option

  function InspectWithDumps(snapshotTo: Option<Path>, policiesTo: Option<Path>, rawPolicies: bool): Inspect {
    Inspect.Inspect(false, BiscuitInputArgs("token", false), None, None, Hex, None,
            RunLimitArgs(None, None, None),
            AuthorizeArgs(false, None, None, None, None, false, false),
            QueryArgs(None, false), ParamArg([]),
            snapshotTo, false, policiesTo, rawPolicies)
  }

  /**
   * As declared, a raw policies dump alone is refused, while the raw policies
   * flag is accepted beside an authorizer dump it does not apply to.
   */
  lemma RawPoliciesFlagMisplaced()
    ensures var c := InspectWithDumps(None, Some("policies.bin"), true);
            !c.Valid() && c.ValidIntended()
    ensures var c := InspectWithDumps(Some("snapshot.bin"), None, true);
            c.Valid() && !c.ValidIntended()
  {
  }

  /**
   * The intended rule differs from the declared one only on commands with the
   * raw policies flag that give exactly one of the two dump files: the raw
   * policies flag then follows the policies dump rather than the authorizer dump.
   */
  lemma RawDumpFlagsIntended(c: Inspect)
    ensures !c.dumpRawPoliciesSnapshot ==> (c.ValidIntended() <==> c.Valid())
    ensures c.dumpSnapshotTo.Some? == c.dumpPoliciesSnapshotTo.Some? ==> (c.ValidIntended() <==> c.Valid())
    ensures c.dumpRawPoliciesSnapshot && c.dumpPoliciesSnapshotTo.None? ==> !c.ValidIntended()
    ensures c.dumpRawPoliciesSnapshot && !c.dumpRawSnapshot && c.dumpSnapshotTo.None? && c.dumpPoliciesSnapshotTo.Some? ==>
              !c.Valid() && (c.ValidIntended() <==> c.(dumpSnapshotTo := c.dumpPoliciesSnapshotTo).Valid())
  {
  }
}
