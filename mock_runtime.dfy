/** The test runtime of `crates/pop-drink/src/mock.rs`, reduced to what the error codecs see of it:
    its `RuntimeError`, the SCALE enum with one variant per pallet that declares errors. */
module MockRuntime {
  import opened Base
  import Scale

  /** Pallet indices, in `construct_runtime!` order. `Timestamp` (index 5) declares no errors. */
  const SystemIndex: byte := 0
  const AssetsIndex: byte := 1
  const BalancesIndex: byte := 2
  const ContractsIndex: byte := 3
  const NftsIndex: byte := 4

  /** A pallet's error is its variant index within that pallet's `Error` enum. */
  datatype RuntimeError =
    | System(variant: byte)
    | Assets(variant: byte)
    | Balances(variant: byte)
    | Contracts(variant: byte)
    | Nfts(variant: byte)

  /** The pallet errors that the test vectors use. */
  const BalanceLow: RuntimeError := Assets(0)
  const NoAccount: RuntimeError := Assets(1)
  const VestingBalance: RuntimeError := Balances(0)
  const LiquidityRestrictions: RuntimeError := Balances(1)

  function PalletIndex(e: RuntimeError): byte {
    match e
    case System(_) => SystemIndex
    case Assets(_) => AssetsIndex
    case Balances(_) => BalancesIndex
    case Contracts(_) => ContractsIndex
    case Nfts(_) => NftsIndex
  }

  /** SCALE encoding: the pallet index, then the variant index. */
  function Encode(e: RuntimeError): (b: seq<byte>)
    ensures |b| == 2 && b[0] == PalletIndex(e) && b[1] == e.variant
  {
    [PalletIndex(e), e.variant]
  }

  /** SCALE decoding from the front of `b`; trailing bytes are left unread. */
  function Decode(b: seq<byte>): Option<RuntimeError> {
    if |b| < 2 then None
    else if b[0] == SystemIndex then Some(System(b[1]))
    else if b[0] == AssetsIndex then Some(Assets(b[1]))
    else if b[0] == BalancesIndex then Some(Balances(b[1]))
    else if b[0] == ContractsIndex then Some(Contracts(b[1]))
    else if b[0] == NftsIndex then Some(Nfts(b[1]))
    else None
  }

  function Codec(): Scale.Codec<RuntimeError> {
    Scale.Codec(Encode, Decode)
  }

  lemma CodecIsPrefixDecoding()
    ensures Scale.PrefixDecoding(Codec())
  {
    forall e: RuntimeError, rest: seq<byte> ensures Decode(Encode(e) + rest) == Some(e) {
      var b := Encode(e) + rest;
      assert b[0] == PalletIndex(e) && b[1] == e.variant;
    }
  }

  /** Only an index of a pallet with errors decodes. */
  lemma DecodeIndex(b: seq<byte>)
    ensures Decode(b).Some? <==> |b| >= 2 && b[0] <= NftsIndex
    ensures Decode(b).Some? ==> Encode(Decode(b).value) == b[..2]
  {
  }
}
