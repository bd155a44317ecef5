/** The version-0 status-code error of the Pop API (`pop_api::primitives::v0::Error`).

    The pop primitives crate is defined outside the modelled crates. This module states the layout
    that the error codecs assume of it: a SCALE enum whose first byte is the variant index
    (`Module` is variant 3), converted to a `u32` by zero-padding its encoding to four bytes and
    reading them little-endian, and converted back by decoding those four bytes, falling back to
    `DecodingFailed` when they do not decode. */
module PopApiV0 {
  import opened Base
  import Scale

  datatype TokenError =
    | FundsUnavailable | OnlyProvider | BelowMinimum | CannotCreate | UnknownAsset
    | Frozen | Unsupported | CannotCreateHold | NotExpendable | Blocked

  datatype ArithmeticError = Underflow | Overflow | DivisionByZero

  datatype TransactionalError = LimitReached | NoLayer

  /** The two bytes of a module error (`[u8; 2]`). */
  type ErrorBytes = s: seq<byte> | |s| == 2 witness [0, 0]

  datatype Error =
    | Other                                           // 0
    | CannotLookup                                    // 1
    | BadOrigin                                       // 2
    | Module(index: byte, error: ErrorBytes)          // 3
    | ConsumerRemaining                               // 4
    | NoProviders                                     // 5
    | TooManyConsumers                                // 6
    | Token(token: TokenError)                        // 7
    | Arithmetic(arithmetic: ArithmeticError)         // 8
    | Transactional(transactional: TransactionalError) // 9
    | Exhausted                                       // 10
    | Corruption                                      // 11
    | Unavailable                                     // 12
    | RootNotAllowed                                  // 13
    | Unknown(dispatchErrorIndex: byte, errorIndex: byte, detail: byte) // 254
    | DecodingFailed                                  // 255

  /** The variant index of `Module`. */
  const ModuleTag: byte := 3

  function TokenIndex(t: TokenError): byte {
    match t
    case FundsUnavailable => 0
    case OnlyProvider => 1
    case BelowMinimum => 2
    case CannotCreate => 3
    case UnknownAsset => 4
    case Frozen => 5
    case Unsupported => 6
    case CannotCreateHold => 7
    case NotExpendable => 8
    case Blocked => 9
  }

  function TokenOf(i: byte): Option<TokenError> {
    if i == 0 then Some(FundsUnavailable)
    else if i == 1 then Some(OnlyProvider)
    else if i == 2 then Some(BelowMinimum)
    else if i == 3 then Some(CannotCreate)
    else if i == 4 then Some(UnknownAsset)
    else if i == 5 then Some(Frozen)
    else if i == 6 then Some(Unsupported)
    else if i == 7 then Some(CannotCreateHold)
    else if i == 8 then Some(NotExpendable)
    else if i == 9 then Some(Blocked)
    else None
  }

  function ArithmeticIndex(a: ArithmeticError): byte {
    match a
    case Underflow => 0
    case Overflow => 1
    case DivisionByZero => 2
  }

  function ArithmeticOf(i: byte): Option<ArithmeticError> {
    if i == 0 then Some(Underflow)
    else if i == 1 then Some(Overflow)
    else if i == 2 then Some(DivisionByZero)
    else None
  }

  function TransactionalIndex(t: TransactionalError): byte {
    match t
    case LimitReached => 0
    case NoLayer => 1
  }

  function TransactionalOf(i: byte): Option<TransactionalError> {
    if i == 0 then Some(LimitReached)
    else if i == 1 then Some(NoLayer)
    else None
  }

  /** SCALE encoding: the variant index, then the fields. */
  function Encode(e: Error): (b: seq<byte>)
    ensures 1 <= |b| <= 4
    ensures b[0] == ModuleTag <==> e.Module?
  {
    match e
    case Other => [0]
    case CannotLookup => [1]
    case BadOrigin => [2]
    case Module(index, error) => [3, index, error[0], error[1]]
    case ConsumerRemaining => [4]
    case NoProviders => [5]
    case TooManyConsumers => [6]
    case Token(t) => [7, TokenIndex(t)]
    case Arithmetic(a) => [8, ArithmeticIndex(a)]
    case Transactional(t) => [9, TransactionalIndex(t)]
    case Exhausted => [10]
    case Corruption => [11]
    case Unavailable => [12]
    case RootNotAllowed => [13]
    case Unknown(d, i, x) => [254, d, i, x]
    case DecodingFailed => [255]
  }

  /** The variants without fields, by index. */
  function UnitVariant(tag: byte): Option<Error> {
    if tag == 0 then Some(Other)
    else if tag == 1 then Some(CannotLookup)
    else if tag == 2 then Some(BadOrigin)
    else if tag == 4 then Some(ConsumerRemaining)
    else if tag == 5 then Some(NoProviders)
    else if tag == 6 then Some(TooManyConsumers)
    else if tag == 10 then Some(Exhausted)
    else if tag == 11 then Some(Corruption)
    else if tag == 12 then Some(Unavailable)
    else if tag == 13 then Some(RootNotAllowed)
    else if tag == 255 then Some(DecodingFailed)
    else None
  }

  /** SCALE decoding of one `Error` from the front of `b`; trailing bytes are left unread. */
  function Decode(b: seq<byte>): (r: Option<Error>)
    ensures |b| == 0 ==> r.None?
    ensures r.Some? ==> Encode(r.value)[0] == b[0]
    ensures |b| >= 4 && b[0] == ModuleTag ==> r == Some(Module(b[1], [b[2], b[3]]))
  {
    if |b| == 0 then None
    else if b[0] == 3 then
      if |b| < 4 then None else Some(Module(b[1], [b[2], b[3]]))
    else if b[0] == 254 then
      if |b| < 4 then None else Some(Unknown(b[1], b[2], b[3]))
    else if b[0] == 7 || b[0] == 8 || b[0] == 9 then
      if |b| < 2 then None
      else if b[0] == 7 then (match TokenOf(b[1]) case Some(t) => Some(Token(t)) case None => None)
      else if b[0] == 8 then (match ArithmeticOf(b[1]) case Some(a) => Some(Arithmetic(a)) case None => None)
      else (match TransactionalOf(b[1]) case Some(t) => Some(Transactional(t)) case None => None)
    else UnitVariant(b[0])
  }

  function Codec(): Scale.Codec<Error> {
    Scale.Codec(Encode, Decode)
  }

  /** `From<u32> for Error`: decode the code's little-endian bytes. */
  function FromU32(value: u32): (r: Error)
    ensures Encode(r)[0] == ToLe(value)[0] || r == DecodingFailed
  {
    match Decode(ToLe(value))
    case Some(e) => e
    case None => DecodingFailed
  }

  /** `From<Error> for u32`: the encoding, zero-padded to four bytes, read little-endian. */
  function IntoU32(e: Error): (r: u32)
    ensures ToLe(r) == Resize(Encode(e), 4)
  {
    ToLeFromLe(Resize(Encode(e), 4));
    FromLe(Resize(Encode(e), 4))
  }

  lemma {:induction false} DecodeEncode(e: Error, rest: seq<byte>)
    ensures Decode(Encode(e) + rest) == Some(e)
  {
    var b := Encode(e) + rest;
    match e {
      case Module(index, error) =>
        assert b[1] == index && [b[2], b[3]] == error;
      case Token(t) =>
        assert b[1] == TokenIndex(t);
        match t {
          case FundsUnavailable =>
          case OnlyProvider =>
          case BelowMinimum =>
          case CannotCreate =>
          case UnknownAsset =>
          case Frozen =>
          case Unsupported =>
          case CannotCreateHold =>
          case NotExpendable =>
          case Blocked =>
        }
      case Arithmetic(a) =>
        assert b[1] == ArithmeticIndex(a);
        match a {
          case Underflow =>
          case Overflow =>
          case DivisionByZero =>
        }
      case Transactional(t) =>
        assert b[1] == TransactionalIndex(t);
        match t {
          case LimitReached =>
          case NoLayer =>
        }
      case Unknown(d, i, x) =>
        assert b[1] == d && b[2] == i && b[3] == x;
      case _ =>
        assert b[0] == Encode(e)[0];
    }
  }

  lemma CodecIsPrefixDecoding()
    ensures Scale.PrefixDecoding(Codec())
  {
    forall e: Error, rest: seq<byte> ensures Codec().decode(Codec().encode(e) + rest) == Some(e) {
      DecodeEncode(e, rest);
    }
  }

  /** A successful decode reads a whole encoding off the front of its input. */
  lemma {:induction false} DecodeReadsPrefix(b: seq<byte>)
    requires Decode(b).Some?
    ensures var e := Encode(Decode(b).value); |e| <= |b| && b[..|e|] == e
  {
    var d := Decode(b).value;
    if b[0] == 7 {
      assert TokenOf(b[1]).Some? && d == Token(TokenOf(b[1]).value);
      assert TokenIndex(TokenOf(b[1]).value) == b[1];
    } else if b[0] == 8 {
      assert ArithmeticOf(b[1]).Some? && d == Arithmetic(ArithmeticOf(b[1]).value);
      assert ArithmeticIndex(ArithmeticOf(b[1]).value) == b[1];
    } else if b[0] == 9 {
      assert TransactionalOf(b[1]).Some? && d == Transactional(TransactionalOf(b[1]).value);
      assert TransactionalIndex(TransactionalOf(b[1]).value) == b[1];
    }
  }

  /** Converting to a code and back is the identity on every error. */
  lemma {:induction false} FromIntoU32(e: Error)
    ensures FromU32(IntoU32(e)) == e
  {
    var padded := Resize(Encode(e), 4);
    ToLeFromLe(padded);
    assert padded == Encode(e) + Zeros(4 - |Encode(e)|);
    DecodeEncode(e, Zeros(4 - |Encode(e)|));
  }

  /** A code whose low byte is the `Module` index always converts to a `Module` error carrying
      the code's other three bytes. */
  lemma {:induction false} FromU32Module(value: u32)
    requires ToLe(value)[0] == ModuleTag
    ensures var b := ToLe(value); FromU32(value) == Module(b[1], [b[2], b[3]])
  {
  }
}
