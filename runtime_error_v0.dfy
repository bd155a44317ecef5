/** The runtime error for Pop API version 0 (`crates/pop-drink/src/errors/v0.rs`): the module
    error is placed directly into the `Module { index, error }` variant of the Pop API error
    instead of being decoded from padded bytes. */
module RuntimeErrorsV0 {
  import opened Base
  import Scale
  import Api = PopApiV0
  import Generic = RuntimeErrors

  datatype RuntimeError<E> = Module(error: E) | Raw(raw: Api.Error)

  /** The Pop API error a module error becomes: the first byte of its encoding is the `index`, the
      rest, zero-padded or cut to two bytes, the `error`. An empty encoding panics on `encoded[0]`. */
  function ModuleApiError<E>(codec: Scale.Codec<E>, e: E): (r: Run<Api.Error>)
    ensures r.Done? <==> |codec.encode(e)| > 0
    ensures r.Panic? ==> r.fault == IndexOutOfBounds
    ensures r.Done? ==>
      var enc := codec.encode(e);
      r.value.Module? && r.value.index == enc[0] &&
      forall i :: 0 <= i < 2 ==> r.value.error[i] == if i + 1 < |enc| then enc[i + 1] else 0
  {
    var encoded := codec.encode(e);
    if |encoded| == 0 then Panic(IndexOutOfBounds)
    else
      var runtimeError := Resize(encoded[1..], 2);
      Done(Api.Module(encoded[0], [runtimeError[0], runtimeError[1]]))
  }

  /** `From<RuntimeError<E>> for u32`. */
  function IntoU32<E>(codec: Scale.Codec<E>, err: RuntimeError<E>): (r: Run<u32>)
    ensures err.Raw? ==> r == Done(Api.IntoU32(err.raw))
    ensures err.Module? ==> (r.Done? <==> |codec.encode(err.error)| > 0)
    ensures r.Panic? ==> r.fault == IndexOutOfBounds
    ensures r.Done? && err.Module? ==> Api.FromU32(r.value) == ModuleApiError(codec, err.error).value
  {
    var decoded := match err
      case Module(e) => ModuleApiError(codec, e)
      case Raw(e) => (Generic.RawDecodes(e); Generic.DecodeApi(Api.Encode(e)));
    match decoded
    case Done(p) => Api.FromIntoU32(p); Done(Api.IntoU32(p))
    case Panic(f) => Panic(f)
  }

  /** `From<u32> for RuntimeError<E>`. */
  function FromU32<E>(codec: Scale.Codec<E>, value: u32): (r: Run<RuntimeError<E>>)
    ensures var p := Api.FromU32(value);
      !p.Module? <==> r == Done(Raw(p))
    ensures r.Panic? ==> r.fault == DecodeFailed
    ensures var p := Api.FromU32(value);
      p.Module? ==>
        (r.Done? <==> codec.decode(Api.Encode(p)[1..]).Some?) &&
        (r.Done? ==> r == Done(Module(codec.decode(Api.Encode(p)[1..]).value)))
  {
    var error := Api.FromU32(value);
    match error
    case Module(index, bytes) =>
      assert Api.Encode(error)[1..] == [index] + bytes;
      (match codec.decode([index] + bytes)
       case Some(e) => Done(Module(e))
       case None => Panic(DecodeFailed))
    case _ => Done(Raw(error))
  }

  /** A module error with a non-empty encoding of at most three bytes survives the round trip,
      given a module codec that tolerates trailing bytes. */
  lemma {:induction false} ModuleRoundTrip<E(!new)>(codec: Scale.Codec<E>, e: E)
    requires Scale.PrefixDecoding(codec)
    requires 1 <= |codec.encode(e)| <= 3
    ensures IntoU32(codec, Module(e)).Done?
    ensures FromU32(codec, IntoU32(codec, Module(e)).value) == Done(Module(e))
  {
    var enc := codec.encode(e);
    var p := ModuleApiError(codec, e).value;
    Api.FromIntoU32(p);
    Scale.DecodesPadded(codec, e, [p.index] + p.error, 3);
  }

  /** A raw error that is not `Module` survives the round trip; a raw `Module` error is
      reclassified as a module error (or the conversion panics). */
  lemma {:induction false} RawRoundTrip<E>(codec: Scale.Codec<E>, e: Api.Error)
    ensures !e.Module? ==> FromU32(codec, IntoU32(codec, Raw(e)).value) == Done(Raw(e))
    ensures e.Module? ==>
      var back := FromU32(codec, IntoU32(codec, Raw(e)).value);
      back.Panic? || back.value.Module?
  {
    Api.FromIntoU32(e);
  }

  /** Whenever the module error encodes to at least one byte, this conversion gives the same code
      as the generic one configured with `MODULE_INDEX` the index of `Module`; an empty encoding
      panics here, while the generic conversion turns it into `Module { 0, [0, 0] }`. */
  lemma {:induction false} AgreesWithGeneric<E>(codec: Scale.Codec<E>, e: E)
    ensures var cfg := Generic.Config(codec, Api.ModuleTag);
      |codec.encode(e)| > 0 ==> IntoU32(codec, Module(e)) == Generic.IntoU32(cfg, Generic.Module(e))
    ensures var cfg := Generic.Config(codec, Api.ModuleTag);
      |codec.encode(e)| == 0 ==>
        IntoU32(codec, Module(e)) == Panic(IndexOutOfBounds) &&
        Generic.IntoU32(cfg, Generic.Module(e)) == Done(Api.IntoU32(Api.Module(0, [0, 0])))
  {
    var cfg := Generic.Config(codec, Api.ModuleTag);
    var b := Generic.ModuleBytes(cfg, e);
    assert Api.Decode(b) == Some(Api.Module(b[1], [b[2], b[3]]));
    if |codec.encode(e)| > 0 {
      var p := ModuleApiError(codec, e).value;
      assert p == Api.Module(b[1], [b[2], b[3]]);
    }
  }
}
