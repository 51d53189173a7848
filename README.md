# biscuit-cli: option constraints, input selection and handler pipelines

This project models the command layer of `biscuit`, the command-line tool for
biscuit authorization tokens. It covers three things.

- **The option records of every subcommand** (`keypair`, `generate`,
  `attenuate`, `inspect`, `inspect-snapshot`, `generate-third-party-block-request`,
  `generate-third-party-block`, `append-third-party-block`, `seal` and the
  shared argument groups). Each is a datatype; each constrained record has a
  `Valid()` predicate that transcribes the flag parser's `conflicts_with`, `requires` and
  `required_unless_present` attributes (`cli.dfy`).
- **The decision tables of the handlers.** These map an option record to one
  input source. The sources are a private key (`KeyBytes`), token, request or
  block bytes (`BiscuitBytes`, with `BiscuitFormat`), or Datalog text
  (`DatalogInput`). The tables also give the output shape of `keypair`.
  `-` means standard input, where `-` is compared as a path, component by
  component, as `PathBuf` equality does (`paths.dfy`, `sources.dfy`). A
  `bail!` becomes `Fault.Bail` and an `unreachable!()` arm becomes
  `Fault.Unreachable` (`errors.dfy`). The proofs show which of those arms the
  flag parser really excludes.
- **The handlers.** Each is a method on a `Session`, which holds the trace of
  steps taken and the chunks written to standard output (`handlers.dfy`).
  Each method is proved to follow a specification function in `pipeline.dfy`.
  That function gives the run's steps, its output and how it ends. The lemmas
  about these functions state the ordering and output properties: the
  conflict check comes before every read, the raw flag chooses the
  serialisation, and a failure writes nothing.

The biscuit library, the `input` module's readers and conflict checks, the
inspectors and the clock are opaque. They are abstract types plus the
function-valued fields of `Auth.Library` (`auth.dfy`), and every operation that
can fail returns a `Result`.

## Model

| member | source | states |
|---|---|---|
| Cli.KeyPairCmd.Valid | src/cli.rs:44-89 | Transcribes the declared `keypair` constraints: `--from-private-key` conflicts with `--from-file`, `--from-format` requires both of them, `--from-algorithm` requires `--from-file`, `--key-algorithm` conflicts with both key inputs, and the two only-flags conflict. A defaulted option counts as not given. |
| Cli.PrivateKeyArgs.Valid | src/cli.rs:448-471 | Transcribes the signing-key attributes one by one: each of `--private-key` and `--private-key-file` is required unless the other is present, they conflict, and `--private-key-algorithm` requires the file. |
| Cli.PrivateKeyExactlyOne | src/cli.rs:448-471 | The signing-key arguments are valid exactly when one of `--private-key` and `--private-key-file` is given and `--private-key-algorithm` only comes with the file. |
| Cli.BlockArgs.Valid | src/cli.rs:408-419 | Transcribes `--block-file` conflicting with `--block`. What this means for the block source is stated by `Sources.BlockSource`. |
| Cli.AppendThirdPartyBlock.Valid | src/cli.rs:243-263 | Transcribes `--block-contents-file` conflicting with `--block-contents` and required unless it is present, and `--raw-block-contents` requiring the file. |
| Cli.ThirdPartyBlockExactlyOne | src/cli.rs:243-263 | `append-third-party-block` is valid exactly when one of `--block-contents` and `--block-contents-file` is given and `--raw-block-contents` only comes with the file. |
| Cli.AuthorizeArgs.Valid | src/cli.rs:344-400 | Transcribes the pairwise `conflicts_with` attributes of the five authorizer sources, each as declared on its own option, and `--authorize-with-raw-snapshot-file` requiring the snapshot file. |
| Cli.AuthorizerAtMostOne | src/cli.rs:344-400 | The authorization arguments are valid exactly when at most one of the five authorizer sources is given and `--authorize-with-raw-snapshot-file` only comes with a snapshot file. |
| Cli.Inspect.Valid | src/cli.rs:141-185 | Transcribes the declared `inspect` constraints: the public key options conflict, `--public-key-algorithm` requires the key file, both raw-dump flags require `--dump-snapshot-to`, and the authorization and query groups are valid. |
| Cli.InspectPublicKeyAtMostOne | src/cli.rs:141-185 | A valid `inspect` has at most one public key input, an algorithm only with a key file, both raw-dump flags only with `--dump-snapshot-to`, and at most one authorizer. |
| Cli.QueryArgs.Valid | src/cli.rs:285-296 | Transcribes `--query-all` requiring `--query`. |
| Cli.FromFormatNeverAccepted | src/cli.rs:46-60 | As declared, `--from-format` requires both `--from-private-key` and `--from-file`, which conflict, so no accepted `keypair` command ever writes it. |
| Cli.FromFormatWithFileRefused | src/cli.rs:49-60 | `keypair --from-file key.raw --from-format raw` is refused by the declared constraints and accepted by the intended ones. |
| Cli.ValidIsIntended | src/cli.rs:44-89 | The intended `keypair` constraints accept everything the declared ones accept. They differ exactly on commands that write `--from-format`. |
| Cli.RawPoliciesFlagMisplaced | src/cli.rs:171-184 | As declared, a raw policies dump without an authorizer dump is refused. The raw policies flag is accepted beside an authorizer dump it does not change. |
| Cli.RawDumpFlagsIntended | src/cli.rs:171-184 | The intended rule for the raw policies flag agrees with the declared one on every command without that flag, and on every command that gives both or neither dump file. Under the intended rule, the flag without the policies dump is refused. With only the policies dump (and no raw authorizer dump), the flag is accepted exactly when the declared rule would accept it with the same file also given as the authorizer dump. |
| Paths.StdinPathShape | src/main.rs:47-58 | Every path equal to `-` as a `PathBuf` is `-` followed by the end or a separator. `-` followed only by separators is such a path. |
| Paths.IsStdinPath | src/main.rs:58 | The comparison `path == PathBuf::from("-")`: the path's components are exactly the one normal component `-`. |
| Paths.StdinPathIsSamePath | src/main.rs:58 | Testing a path for the sentinel is the same as `PathBuf` equality with `-`. |
| Paths.NearMissesAreFiles | src/main.rs:187-194 | `./-`, `/-`, `--`, `-.` and the empty path are not the sentinel, so they are read as files. |
| Sources.KeyPairKeySource | src/main.rs:48-63 | The `keypair` key match. A literal key in raw format is a `bail!` whatever the file. Both inputs in another format reach `unreachable!()`. These are its only errors. No input means a fresh key. Otherwise the source carries exactly the given literal or file and the format, and a `-` file is standard input. |
| Sources.KeyPairModes | src/cli.rs:44-89 | Under the declared constraints, a written `--key-algorithm` means a fresh key pair, and a literal key is always read as hex. A key file is standard input or that file, in hex. `--from-algorithm` only comes with a key read from a file or standard input. The output table's `unreachable!()` arm is never reached. |
| Sources.KeyPairKeySourceDefined | src/main.rs:48-63 | Under the flag constraints, the `keypair` key match never reaches `unreachable!()`, and every given key input selects a source or the raw-literal error. |
| Sources.KeyPairOutputDefined | src/main.rs:77-126 | Under the flag constraints, every (only-private, only-public, format) triple selects an output shape, except both keys in raw, which is an error. Distinct triples select distinct shapes. |
| Sources.KeyPairOutput | src/main.rs:77-126 | Both keys in raw is the `bail!`. Both only-flags reach `unreachable!()`. These are its only errors. Every other triple selects the shape in that format, holding the private key exactly when public-only is not set and the public key exactly when private-only is not set. |
| Sources.GenerateKeySourceAsWritten | src/main.rs:137-150 | The `generate` signing-key match as written reaches `unreachable!()` exactly when both or neither input is given, or a literal key is in raw format. Otherwise it carries the given input, and a `-` file stays a file. |
| Sources.ThirdPartyKeySourceAsWritten | src/main.rs:293-313 | The `generate-third-party-block` signing-key match, with its extra raw-file arm, selects the same source as the `generate` match on every input. |
| Sources.LiteralRawKeyReachesUnreachable | src/main.rs:143-147 | `--private-key K --private-key-format raw` passes the flag constraints and reaches `unreachable!()` in both signing-key matches. |
| Sources.SigningKeySource | src/main.rs:301-308 | The corrected signing-key match. A literal raw key is the same `bail!` as in `keypair`. `unreachable!()` is reached exactly when both or neither input is given. These are its only errors, and otherwise it carries the given input. |
| Sources.SigningKeySourceCorrects | src/main.rs:137-150 | The corrected match agrees with the as-written one wherever that one selects a source. Under the flag constraints it never reaches `unreachable!()`, and its only error is the literal raw key. |
| Sources.FileSource | src/main.rs:181-194 | A token or request file that is `-` as a path is standard input, and any other path is that file. The format is raw exactly when the raw-input flag is set. |
| Sources.FormatOf | src/main.rs:181-185 | The format is `RawBiscuit` exactly when the raw flag is set. |
| Sources.ThirdPartyBlockSource | src/main.rs:360-377 | The third-party block is a file (`-` is standard input) or a base64 literal. It reaches `unreachable!()` exactly when both or neither option is given. |
| Sources.ThirdPartyBlockSourceDefined | src/main.rs:366-377 | Under the flag constraints the third-party block match is total, and a literal is never read raw. |
| Sources.AuthoritySource | src/main.rs:131-135 | The authority block is standard input for `-`, a file for another path, and the editor when no file is given. It is never a literal. |
| Sources.BlockSource | src/main.rs:196-205 | A new block is a file, a literal, or the editor when neither option is given. `-` is never standard input here. `unreachable!()` is reached exactly when both are given. |
| Sources.StdinSentinelPerOption | src/main.rs:58 | `-` is standard input for the keypair key file, the authority file and token, request and third-party block files (`--block-contents-file`). It is an ordinary file name for a signing key file and a block file. |
| Pipeline.Encoding | src/main.rs:224-228 | The encoded output is bytes exactly when the raw flag is set. It is the raw serialisation when raw and the base64 text otherwise, and it fails exactly when that serialiser fails. |
| Pipeline.Serialized | src/main.rs:168-176 | Serialising and writing succeeds exactly when the chosen serialiser does. It then writes exactly one chunk, the encoding of the value (the raw bytes when raw, the base64 text otherwise), after the serialisation step for that flag. A failed serialisation writes nothing, and it panics or returns the error as the handler does. |
| Pipeline.CheckFirstIsChecked | src/main.rs:207-209 | A step sequence that starts by resolving sources and then checks for conflicts has every read after a conflict check. |
| Pipeline.ConflictCheckPrecedesReads | src/main.rs:207-209 | In `attenuate`, `generate-third-party-block` and `append-third-party-block`, every read of a key, token, request, block or Datalog input comes after the conflict check. |
| Pipeline.AttenuateChecksFirst | src/main.rs:196-209 | `attenuate` checks for input conflicts before reading, and reads nothing when the check fails. |
| Pipeline.ThirdPartyBlockChecksFirst | src/main.rs:280-315 | `generate-third-party-block` checks for input conflicts before reading its key or request, and reads nothing when the check fails. |
| Pipeline.AppendThirdPartyBlockChecksFirst | src/main.rs:366-381 | `append-third-party-block` checks for input conflicts before reading its token, and reads nothing when the check fails. |
| Pipeline.RawFlagSelectsSerialisation | src/main.rs:168-176 | Every token-, request- or block-producing subcommand writes exactly one chunk on success: bytes when its raw-output flag is set, text otherwise, just after the serialisation step for that flag. On failure it writes nothing. Which bytes or text are written is stated per subcommand by the six lemmas below. |
| Pipeline.GenerateSerialises | src/main.rs:137-177 | On success `generate` has read the key and the authority block. It writes exactly the encoding, in the form `--raw` selects, of the token built from that block with the TTL and root key id applied, signed by the key pair of that key. On failure it writes nothing. |
| Pipeline.AttenuateSerialises | src/main.rs:207-230 | On success `attenuate` writes exactly the encoding, in the form `--raw-output` selects, of the token read with the block read (plus any TTL check) appended. On failure it writes nothing. |
| Pipeline.RequestSerialises | src/main.rs:249-259 | On success `generate-third-party-block-request` writes exactly the encoding, in the form `--raw-output` selects, of the third-party request of the token read. On failure it writes nothing. |
| Pipeline.ThirdPartyBlockSerialises | src/main.rs:293-337 | On success `generate-third-party-block` writes exactly the encoding, in the form `--raw-output` selects, of the block created from the request read, signed by the key read, from the block read with any TTL check. On failure it writes nothing. |
| Pipeline.AppendThirdPartyBlockSerialises | src/main.rs:379-391 | On success `append-third-party-block` writes exactly the encoding, in the form `--raw-output` selects, of the token read with the given third-party block appended. On failure it writes nothing. |
| Pipeline.SealSerialises | src/main.rs:407-415 | On success `seal` writes exactly the encoding, in the form `--raw-output` selects, of the token read, sealed. On failure it writes nothing. |
| Pipeline.FailureWritesNothing | src/main.rs:26-44 | A failed subcommand writes nothing, except `keypair` printing both keys in PEM, which has already printed its header line. A successful subcommand other than the inspections writes something. For the inspections the failure half holds only because their output is not modelled. |
| Pipeline.KeyPairWritesOnSuccess | src/main.rs:65-127 | `keypair` writes at least one chunk when it succeeds, and at most the PEM header line when it fails. |
| Pipeline.KeyPairPrintsOnSuccess | src/main.rs:77-126 | The printing stage of `keypair` writes something when it succeeds, and at most the PEM header line when it fails. |
| Pipeline.KeyPairReadsKeyIffGiven | src/main.rs:65-75 | `keypair` reads a private key exactly when a key input is given and accepted. It generates a fresh key pair exactly when no key input is given. |
| Pipeline.PrintingOnlyWrites | src/main.rs:77-126 | The printing stage of `keypair` adds only writes to the steps before it. |
| Pipeline.PemHeaderBeforeFailure | src/main.rs:94-104 | When a fresh key pair's PEM conversion fails, for the private or for the public key, `keypair` has already printed "Generating a new random keypair" and nothing more. |
| Pipeline.PrivateRawIsBytesOnly | src/main.rs:65-108 | `keypair --only-private-key --key-output-format raw` writes only the private key bytes of the key pair it made. That is the fresh pair for the key algorithm when no key is given, and otherwise the pair derived from the key read. |
| Pipeline.BinaryBothKeysRefusedAfterReading | src/main.rs:65-84 | `keypair --from-file F --key-output-format raw` without an only-flag fails, writes nothing, and has already read the key file. |
| Pipeline.HandlersNeverReachUnreachable | src/main.rs:26-44 | No subcommand the flag constraints accept ends in `unreachable!()`. The signing-key matches use the corrected table. |
| Pipeline.KeyPairNeverUnreachable | src/main.rs:46-128 | An accepted `keypair` never ends in `unreachable!()`. |
| Pipeline.GenerateNeverUnreachable | src/main.rs:130-178 | With the corrected signing-key table, an accepted `generate` never ends in `unreachable!()`. As written it can (see Findings). |
| Pipeline.ThirdPartyBlockNeverUnreachable | src/main.rs:262-338 | With the corrected signing-key table, an accepted `generate-third-party-block` never ends in `unreachable!()`. As written it can (see Findings). |
| Pipeline.AppendThirdPartyBlockNeverUnreachable | src/main.rs:340-392 | An accepted `append-third-party-block` never ends in `unreachable!()`. |
| Pipeline.SigningKeyFailureReportedLast | src/main.rs:293-329 | In `generate-third-party-block`, an unreadable signing key is reported only after the request and block are read, and no block is created. An earlier request error is reported instead. |
| Pipeline.UnreadableKeyStopsBeforeSigning | src/main.rs:318-329 | Once the request is read, an unreadable signing key stops the run after the block is read and before a block is created, writing nothing. |
| Handlers.Session.WriteAll | src/main.rs:176 | A write appends one step and exactly the written chunk. |
| Handlers.Session.Println | src/main.rs:87-92 | A printed line is written as its text followed by a newline. |
| Handlers.Emit | src/main.rs:168-176 | Serialises as the raw flag asks and writes the result. Trace, output and outcome are those of `Pipeline.Serialized`. |
| Handlers.PrintKeys | src/main.rs:77-126 | Prints the selected key output shape. Trace, output and outcome are those of `Pipeline.KeyPairWrites`. |
| Handlers.ApplyAuthorityOptions | src/main.rs:153-166 | Applies `--add-ttl` and `--root-key-id` to the authority builder in that order, recording a step for each one given. |
| Handlers.ApplyBlockTtl | src/main.rs:219-221 | Applies `--add-ttl` to a block builder, recording a step only when it is given. |
| Handlers.HandleKeyPair | src/main.rs:46-128 | `handle_keypair` takes exactly the steps of `Pipeline.KeyPairRun`, writes exactly its output and ends as it does. |
| Handlers.HandleGenerate | src/main.rs:130-178 | `handle_generate` takes exactly the steps of `Pipeline.GenerateRun`, writes exactly its output and ends as it does. |
| Handlers.HandleAttenuate | src/main.rs:180-231 | `handle_attenuate` takes exactly the steps of `Pipeline.AttenuateRun`, writes exactly its output and ends as it does. |
| Handlers.HandleGenerateRequest | src/main.rs:233-260 | `handle_generate_request` takes exactly the steps of `Pipeline.GenerateRequestRun`, writes exactly its output and ends as it does. |
| Handlers.HandleGenerateThirdPartyBlock | src/main.rs:262-338 | `handle_generate_third_party_block` takes exactly the steps of `Pipeline.GenerateThirdPartyBlockRun`, writes exactly its output and ends as it does. |
| Handlers.CreateThirdPartyBlock | src/main.rs:315-337 | The second half of `handle_generate_third_party_block` follows `Pipeline.ThirdPartyBlockCreated`. |
| Handlers.HandleAppendThirdPartyBlock | src/main.rs:340-392 | `handle_append_third_party_block` takes exactly the steps of `Pipeline.AppendThirdPartyBlockRun`, writes exactly its output and ends as it does. |
| Handlers.HandleSeal | src/main.rs:394-416 | `handle_seal` takes exactly the steps of `Pipeline.SealRun`, writes exactly its output and ends as it does. |
| Handlers.Inspect | src/main.rs:29-30 | An inspection is one opaque step. It writes nothing this model sees and ends as the inspector does. |
| Handlers.HandleCommand | src/main.rs:26-44 | `handle_command` dispatches each subcommand to its handler, and the run is `Pipeline.CommandRun`. |

## Left out

- The `input` module (`read_private_key_from`, `read_biscuit_from`, `read_request_from`, `read_authority_from`, `read_block_from`, `append_third_party_from`, `ensure_no_input_conflict`, `ensure_no_input_conflict_third_party`) is not part of this model. Its functions are opaque fields of `Auth.Library` that may fail, and nothing is assumed about the conflict rules.
- The `inspect` module (`handle_inspect`, `handle_inspect_snapshot`) is not part of this model. An inspection is one opaque step that may fail, and its output is not modelled.
- The biscuit library (key generation and conversion, PEM, token building, appending, sealing, third-party requests and blocks, serialisation) is opaque: abstract types and functions that may fail.
- The defaults of `--from-format`, `--key-output-format` and `--key-algorithm` are taken to be `hex`, `hex` and `ed25519` (`Input.DefaultKeyFormat`, `Input.DefaultAlgorithm`), because the `Default` implementations live in the `input` module.
- TTL handling: `parse_ttl` and `Ttl::to_datetime` read the clock, so the expiry date is the opaque `Library.expiration`.
- `--param` parsing, `Rule` and `Duration` parsing, help text and the parser's own debug assertion are left out. Only the constraint attributes are modelled.
- Standard-output writes cannot fail in this model. The handlers discard the result of `write_all`, and `println!` panics on a broken pipe, which is not modelled.
- The editor that `FromEditor` opens is part of the opaque readers.
- Paths.Components: only the Unix reading of a path is modelled (no drive prefixes or backslash separators).
- Handlers.HandleGenerate and Handlers.HandleGenerateThirdPartyBlock use the corrected `Sources.SigningKeySource`. The as-written match, with its reachable `unreachable!()`, is `Sources.GenerateKeySourceAsWritten` (see Findings).
- Pipeline.HandlersNeverReachUnreachable: for the same reason, it holds for the corrected signing-key table and not for the code as written.
- Pipeline.GenerateNeverUnreachable: holds only for the corrected signing-key table. As written, `generate --private-key K --private-key-format raw` is accepted and reaches `unreachable!()` (`Sources.LiteralRawKeyReachesUnreachable`).
- Pipeline.ThirdPartyBlockNeverUnreachable: holds only for the corrected signing-key table, for the same input.
- The handlers accept any option record, as the Rust functions do. The flag constraints (`Valid()`) appear only as preconditions of the lemmas that depend on them.
- Pipeline.FailureWritesNothing: writing nothing on failure is not true of `keypair` printing both keys in PEM. There the header line is printed before the PEM conversion, which can fail, so the claim carries that exception. For the inspections, the failure half holds only because their output is not modelled.

## Findings

| source | as written | input that shows it | evidently intended | confidence | as-written member | corrected member |
|---|---|---|---|---|---|---|
| src/cli.rs:52-60 | `--from-format` `requires` both `--from-private-key` and `--from-file`, which conflict with each other, so the option can never be written | `biscuit keypair --from-file key.raw --from-format raw` is refused | `--from-format` needs one of the two key inputs | not executed | Cli.FromFormatNeverAccepted, Cli.FromFormatWithFileRefused | Cli.ValidIsIntended, Sources.KeyPairKeySourceDefined |
| src/main.rs:143-147 and src/main.rs:301-308 | the signing-key matches of `generate` and `generate-third-party-block` have no arm for a literal key in raw format, and no constraint excludes it | `biscuit generate --private-key K --private-key-format raw` reaches `unreachable!()` | a user error, as `keypair` reports with `bail!` | not executed | Sources.LiteralRawKeyReachesUnreachable, Sources.GenerateKeySourceAsWritten | Sources.SigningKeySource, Sources.SigningKeySourceCorrects |
| src/cli.rs:183-184 | `--dump-raw-policies-snapshot` `requires` `--dump-snapshot-to` rather than `--dump-policies-snapshot-to` | `biscuit inspect T --dump-policies-snapshot-to p.bin --dump-raw-policies-snapshot` is refused | the raw policies flag needs the policies dump it changes | not executed | Cli.RawPoliciesFlagMisplaced | Cli.RawDumpFlagsIntended |
