/**
 * The input-source descriptions the handlers build: where a key, a token, a
 * request, a third-party block or Datalog text is read from, and in which
 * encoding. The readers that consume them live in the `input` module, which is
 * not part of this model; their effect is supplied through `Auth.Library`.
 */
module Input {
  import opened Paths

  /** `--*-format`: how key material is encoded. */
  datatype KeyFormat = Hex | Raw | Pem

  /** The value clap uses for an omitted `KeyFormat` option (`default_value_t`). */
  const DefaultKeyFormat: KeyFormat := Hex

  /** Key algorithms accepted by `--*-algorithm`. */
  datatype Algorithm = Ed25519 | Secp256r1

  /** The value clap uses for an omitted `--key-algorithm`. */
  const DefaultAlgorithm: Algorithm := Ed25519

  /** Where a private key comes from. */
  datatype KeyBytes =
    | HexString(hex: string)
    | PemString(pem: string)
    | FromFile(format: KeyFormat, path: Path)
    | FromStdin(format: KeyFormat)

  /** Whether token, request or block bytes are raw or base64 text. */
  datatype BiscuitFormat = RawBiscuit | Base64Biscuit

  /** Where token, request or third-party block bytes come from. */
  datatype BiscuitBytes =
    | FromFile(format: BiscuitFormat, path: Path)
    | FromStdin(format: BiscuitFormat)
    | Base64String(text: string)

  /** Where Datalog source text comes from. */
  datatype DatalogInput =
    | FromFile(path: Path)
    | FromStdin
    | DatalogString(source: string)
    | FromEditor

  /** A `--param key[:type]=value` binding; its parser is not part of this model. */
  type Param

  /** A `--add-ttl` value (timestamp or duration); its parser is not part of this model. */
  type Ttl

  /** A `--max-time` duration. */
  type Duration

  /** A `--query` Datalog rule. */
  type Rule

  newtype u32 = x: int | 0 <= x < 0x1_0000_0000
  newtype u64 = x: int | 0 <= x < 0x1_0000_0000_0000_0000
  newtype byte = x: int | 0 <= x < 0x100
}
