/** The generic runtime error of `crates/pop-drink/src/error.rs` and its conversions to and from
    the 4-byte status code a contract returns.

    `RuntimeErrorConfig` supplies the module error type (by its SCALE codec), the Pop API error
    type (here always the version-0 error) and `MODULE_INDEX`. */
module RuntimeErrors {
  import opened Base
  import Scale
  import Api = PopApiV0

  datatype Config<!M> = Config(moduleCodec: Scale.Codec<M>, moduleIndex: byte)

  datatype RuntimeError<M> = Module(error: M) | Raw(raw: Api.Error)

  /** `crate::utils::decode` of a Pop API error, which panics when the bytes do not decode. */
  function DecodeApi(b: seq<byte>): (r: Run<Api.Error>)
    ensures r.Done? <==> Api.Decode(b).Some?
    ensures r.Panic? ==> r.fault == DecodeFailed
    ensures r.Done? ==> var e := Api.Encode(r.value); |e| <= |b| && b[..|e|] == e
  {
    match Api.Decode(b)
    case Some(e) => Api.DecodeReadsPrefix(b); Done(e)
    case None => Panic(DecodeFailed)
  }

  /** The bytes the module arm decodes: `MODULE_INDEX` inserted before the module error's
      encoding, then resized to four bytes. */
  function ModuleBytes<M>(cfg: Config<M>, m: M): (b: seq<byte>)
    ensures |b| == 4 && b[0] == cfg.moduleIndex
    ensures forall i :: 1 <= i < 4 ==>
      b[i] == if i <= |cfg.moduleCodec.encode(m)| then cfg.moduleCodec.encode(m)[i - 1] else 0
  {
    Resize([cfg.moduleIndex] + cfg.moduleCodec.encode(m), 4)
  }

  /** A Pop API error's own encoding decodes back to it. */
  lemma RawDecodes(e: Api.Error)
    ensures DecodeApi(Api.Encode(e)) == Done(e)
  {
    Api.DecodeEncode(e, []);
    assert Api.Encode(e) + [] == Api.Encode(e);
  }

  /** `From<RuntimeError<T>> for u32`. */
  function IntoU32<M>(cfg: Config<M>, err: RuntimeError<M>): (r: Run<u32>)
    ensures err.Raw? ==> r == Done(Api.IntoU32(err.raw))
    ensures err.Module? ==> (r.Done? <==> Api.Decode(ModuleBytes(cfg, err.error)).Some?)
    ensures r.Panic? ==> r.fault == DecodeFailed
    ensures r.Done? ==>
      ToLe(r.value)[0] == match err case Module(_) => cfg.moduleIndex case Raw(e) => Api.Encode(e)[0]
  {
    var decoded := match err
      case Module(m) => DecodeApi(ModuleBytes(cfg, m))
      case Raw(e) => (RawDecodes(e); DecodeApi(Api.Encode(e)));
    match decoded
    case Done(e) => Done(Api.IntoU32(e))
    case Panic(f) => Panic(f)
  }

  /** `From<u32> for RuntimeError<T>`. */
  function FromU32<M>(cfg: Config<M>, value: u32): (r: Run<RuntimeError<M>>)
    ensures var e := Api.FromU32(value);
      Api.Encode(e)[0] != cfg.moduleIndex <==> r == Done(Raw(e))
    ensures Api.Encode(Api.FromU32(value))[0] == cfg.moduleIndex ==> r.Panic? || r.value.Module?
    ensures var encoded := Api.Encode(Api.FromU32(value));
      encoded[0] == cfg.moduleIndex && |encoded| < 2 ==> r == Panic(IndexOutOfBounds)
    ensures r.Panic? ==> r.fault == IndexOutOfBounds || r.fault == DecodeFailed
    ensures r.Done? && r.value.Module? ==>
      cfg.moduleCodec.decode(Api.Encode(Api.FromU32(value))[1..]) == Some(r.value.error)
  {
    var error := Api.FromU32(value);
    var encoded := Api.Encode(error);
    if encoded[0] != cfg.moduleIndex then Done(Raw(error))
    else if |encoded| < 2 then Panic(IndexOutOfBounds)
    else
      assert [encoded[1]] + encoded[2..] == encoded[1..];
      match cfg.moduleCodec.decode([encoded[1]] + encoded[2..])
      case Some(m) => Done(Module(m))
      case None => Panic(DecodeFailed)
  }

  /** With `MODULE_INDEX` equal to the index of `Module`, a module error's code, read as four
      little-endian bytes, is exactly `MODULE_INDEX` followed by its encoding, zero-padded or cut
      to four bytes. */
  lemma {:induction false} ModuleCode<M>(cfg: Config<M>, m: M)
    requires cfg.moduleIndex == Api.ModuleTag
    ensures IntoU32(cfg, Module(m)).Done?
    ensures ToLe(IntoU32(cfg, Module(m)).value) == ModuleBytes(cfg, m)
  {
    var b := ModuleBytes(cfg, m);
    var p := Api.Module(b[1], [b[2], b[3]]);
    assert Api.Decode(b) == Some(p);
    assert Api.Encode(p) == b;
    assert Resize(b, 4) == b;
    ToLeFromLe(b);
  }

  /** For any `MODULE_INDEX`, the module arm succeeds exactly when the padded bytes decode as a
      Pop API error; the code then carries that error's encoding, a prefix of the padded bytes,
      and zeros after it. */
  lemma {:induction false} ModuleCodeAnyIndex<M>(cfg: Config<M>, m: M)
    ensures IntoU32(cfg, Module(m)).Done? <==> Api.Decode(ModuleBytes(cfg, m)).Some?
    ensures IntoU32(cfg, Module(m)).Done? ==>
      var b, c := ModuleBytes(cfg, m), ToLe(IntoU32(cfg, Module(m)).value);
      var k := |Api.Encode(Api.Decode(b).value)|;
      c[..k] == b[..k] && forall i :: k <= i < 4 ==> c[i] == 0
  {
    var b := ModuleBytes(cfg, m);
    if Api.Decode(b).Some? {
      var p := Api.Decode(b).value;
      Api.DecodeReadsPrefix(b);
      ToLeFromLe(Resize(Api.Encode(p), 4));
    }
  }

  /** The module decoder is given the Pop API encoding with only its first byte dropped. */
  lemma {:induction false} ModuleDecoderInput<M>(cfg: Config<M>, value: u32, m: M)
    requires Api.Encode(Api.FromU32(value))[0] == cfg.moduleIndex
    requires |Api.Encode(Api.FromU32(value))| >= 2
    ensures FromU32(cfg, value) == Done(Module(m)) <==>
      cfg.moduleCodec.decode(Api.Encode(Api.FromU32(value))[1..]) == Some(m)
  {
    var encoded := Api.Encode(Api.FromU32(value));
    assert [encoded[1]] + encoded[2..] == encoded[1..];
  }

  /** With `MODULE_INDEX` the index of `Module` and a module codec that tolerates trailing bytes, a
      module error whose encoding fits in three bytes survives the round trip through its code. */
  lemma {:induction false} ModuleRoundTrip<M(!new)>(cfg: Config<M>, m: M)
    requires cfg.moduleIndex == Api.ModuleTag && Scale.PrefixDecoding(cfg.moduleCodec)
    requires |cfg.moduleCodec.encode(m)| <= 3
    ensures IntoU32(cfg, Module(m)).Done?
    ensures FromU32(cfg, IntoU32(cfg, Module(m)).value) == Done(Module(m))
  {
    ModuleCode(cfg, m);
    var b := ModuleBytes(cfg, m);
    var code := IntoU32(cfg, Module(m)).value;
    var p := Api.Module(b[1], [b[2], b[3]]);
    assert Api.Decode(b) == Some(p);
    assert Api.FromU32(code) == p;
    assert Api.Encode(p) == b;
    Scale.DecodesPadded(cfg.moduleCodec, m, b[1..], 3);
    assert [b[1]] + b[2..] == b[1..];
  }

  /** Only the first three bytes of a module error's encoding reach the code: two module errors
      whose encodings agree on those bytes have the same code. */
  lemma {:induction false} ModuleTruncation<M>(cfg: Config<M>, m1: M, m2: M)
    requires |cfg.moduleCodec.encode(m1)| >= 3 && |cfg.moduleCodec.encode(m2)| >= 3
    requires cfg.moduleCodec.encode(m1)[..3] == cfg.moduleCodec.encode(m2)[..3]
    ensures IntoU32(cfg, Module(m1)) == IntoU32(cfg, Module(m2))
  {
    var b1, b2 := ModuleBytes(cfg, m1), ModuleBytes(cfg, m2);
    assert forall i :: 0 <= i < 4 ==> b1[i] == b2[i];
    assert b1 == b2;
  }

  /** A raw error whose encoding does not start with `MODULE_INDEX` survives the round trip. */
  lemma {:induction false} RawRoundTrip<M>(cfg: Config<M>, e: Api.Error)
    requires Api.Encode(e)[0] != cfg.moduleIndex
    ensures FromU32(cfg, IntoU32(cfg, Raw(e)).value) == Done(Raw(e))
  {
    Api.FromIntoU32(e);
  }

  /** A raw error whose encoding starts with `MODULE_INDEX` never comes back as `Raw`. */
  lemma {:induction false} RawCollision<M>(cfg: Config<M>, e: Api.Error)
    requires Api.Encode(e)[0] == cfg.moduleIndex
    ensures FromU32(cfg, IntoU32(cfg, Raw(e)).value).Panic? ||
            FromU32(cfg, IntoU32(cfg, Raw(e)).value).value.Module?
  {
    Api.FromIntoU32(e);
  }
}
