/** The test vectors of `crates/pop-drink/src/error.rs` and `crates/pop-drink/src/errors/v0.rs`,
    over the mock runtime with `MODULE_INDEX = 3`, and the general facts about that runtime they
    are instances of. */
module ErrorVectors {
  import opened Base
  import Api = PopApiV0
  import Mock = MockRuntime
  import G = RuntimeErrors
  import V0 = RuntimeErrorsV0
  import Errors

  /** The test configuration: the mock runtime's errors, `MODULE_INDEX = 3`. */
  function MockConfig(): G.Config<Mock.RuntimeError> {
    G.Config(Mock.Codec(), 3)
  }

  function GenericConversions(): Errors.Conversions<G.RuntimeError<Mock.RuntimeError>> {
    Errors.Conversions(e => G.IntoU32(MockConfig(), e), v => G.FromU32(MockConfig(), v))
  }

  function V0Conversions(): Errors.Conversions<V0.RuntimeError<Mock.RuntimeError>> {
    Errors.Conversions(e => V0.IntoU32(Mock.Codec(), e), v => V0.FromU32(Mock.Codec(), v))
  }

  /** The Pop API error a mock pallet error stands for: `Module { index: pallet, error: [variant, 0] }`. */
  function ApiErrorOf(m: Mock.RuntimeError): Api.Error {
    Api.Module(Mock.PalletIndex(m), [m.variant, 0])
  }

  /** Every mock pallet error has, under both conversions, exactly the code of its Pop API
      counterpart, and comes back unchanged from that code. */
  lemma {:induction false} MockModuleCode(m: Mock.RuntimeError)
    ensures G.IntoU32(MockConfig(), G.Module(m)) == Done(Api.IntoU32(ApiErrorOf(m)))
    ensures V0.IntoU32(Mock.Codec(), V0.Module(m)) == Done(Api.IntoU32(ApiErrorOf(m)))
    ensures G.FromU32(MockConfig(), Api.IntoU32(ApiErrorOf(m))) == Done(G.Module(m))
    ensures V0.FromU32(Mock.Codec(), Api.IntoU32(ApiErrorOf(m))) == Done(V0.Module(m))
  {
    var cfg := MockConfig();
    Mock.CodecIsPrefixDecoding();
    G.ModuleCode(cfg, m);
    var b := G.ModuleBytes(cfg, m);
    assert b == Api.Encode(ApiErrorOf(m));
    assert Resize(b, 4) == b;
    G.ModuleRoundTrip(cfg, m);
    V0.AgreesWithGeneric(Mock.Codec(), m);
    V0.ModuleRoundTrip(Mock.Codec(), m);
  }

  /** A mock pallet error passes both assertions against the Pop API error it stands for. */
  lemma {:induction false} MockModuleAssert(m: Mock.RuntimeError)
    ensures Errors.AssertRuntimeErr(GenericConversions(), Api.IntoU32, Errors.CallResult<(), Api.Error>.Err(ApiErrorOf(m)), G.Module(m)) == Errors.Pass
    ensures Errors.AssertRuntimeErr(V0Conversions(), Api.IntoU32, Errors.CallResult<(), Api.Error>.Err(ApiErrorOf(m)), V0.Module(m)) == Errors.Pass
  {
    MockModuleCode(m);
  }

  /** A Pop API error whose encoding does not start with 3 passes both assertions against `Raw` of
      itself. */
  lemma {:induction false} RawAssert(e: Api.Error)
    requires Api.Encode(e)[0] != 3
    ensures Errors.AssertRuntimeErr(GenericConversions(), Api.IntoU32, Errors.CallResult<(), Api.Error>.Err(e), G.Raw(e)) == Errors.Pass
    ensures Errors.AssertRuntimeErr(V0Conversions(), Api.IntoU32, Errors.CallResult<(), Api.Error>.Err(e), V0.Raw(e)) == Errors.Pass
  {
    G.RawRoundTrip(MockConfig(), e);
    V0.RawRoundTrip(Mock.Codec(), e);
  }

  /** The seven test cases: a runtime error and the Pop API error it must convert like. */
  function Cases(): seq<(G.RuntimeError<Mock.RuntimeError>, Api.Error)> {
    [ (G.Raw(Api.BadOrigin), Api.BadOrigin),
      (G.Raw(Api.Token(Api.BelowMinimum)), Api.Token(Api.BelowMinimum)),
      (G.Raw(Api.Arithmetic(Api.Overflow)), Api.Arithmetic(Api.Overflow)),
      (G.Module(Mock.BalanceLow), Api.Module(Mock.AssetsIndex, [0, 0])),
      (G.Module(Mock.NoAccount), Api.Module(Mock.AssetsIndex, [1, 0])),
      (G.Module(Mock.VestingBalance), Api.Module(Mock.BalancesIndex, [0, 0])),
      (G.Module(Mock.LiquidityRestrictions), Api.Module(Mock.BalancesIndex, [1, 0])) ]
  }

  /** `runtime_error_to_primitives_error_conversion_works` and `assert_runtime_error_works`: each
      case has its counterpart's code, and passes the assertion against it. */
  lemma {:induction false} TestCases()
    ensures forall i :: 0 <= i < |Cases()| ==>
      G.IntoU32(MockConfig(), Cases()[i].0) == Done(Api.IntoU32(Cases()[i].1)) &&
      Errors.AssertRuntimeErr(GenericConversions(), Api.IntoU32,
        Errors.CallResult<(), Api.Error>.Err(Cases()[i].1), Cases()[i].0) == Errors.Pass
  {
    forall i | 0 <= i < |Cases()|
      ensures G.IntoU32(MockConfig(), Cases()[i].0) == Done(Api.IntoU32(Cases()[i].1))
      ensures Errors.AssertRuntimeErr(GenericConversions(), Api.IntoU32,
        Errors.CallResult<(), Api.Error>.Err(Cases()[i].1), Cases()[i].0) == Errors.Pass
    {
      var (r, e) := Cases()[i];
      if r.Module? {
        MockModuleCode(r.error);
        MockModuleAssert(r.error);
      } else {
        RawAssert(e);
      }
    }
  }

  /** The same seven cases for the version-0 runtime error. */
  function CasesV0(): seq<(V0.RuntimeError<Mock.RuntimeError>, Api.Error)> {
    [ (V0.Raw(Api.BadOrigin), Api.BadOrigin),
      (V0.Raw(Api.Token(Api.BelowMinimum)), Api.Token(Api.BelowMinimum)),
      (V0.Raw(Api.Arithmetic(Api.Overflow)), Api.Arithmetic(Api.Overflow)),
      (V0.Module(Mock.BalanceLow), Api.Module(Mock.AssetsIndex, [0, 0])),
      (V0.Module(Mock.NoAccount), Api.Module(Mock.AssetsIndex, [1, 0])),
      (V0.Module(Mock.VestingBalance), Api.Module(Mock.BalancesIndex, [0, 0])),
      (V0.Module(Mock.LiquidityRestrictions), Api.Module(Mock.BalancesIndex, [1, 0])) ]
  }

  /** The version-0 tests: each case has its counterpart's code, and passes the assertion. */
  lemma {:induction false} TestCasesV0()
    ensures forall i :: 0 <= i < |CasesV0()| ==>
      V0.IntoU32(Mock.Codec(), CasesV0()[i].0) == Done(Api.IntoU32(CasesV0()[i].1)) &&
      Errors.AssertRuntimeErr(V0Conversions(), Api.IntoU32,
        Errors.CallResult<(), Api.Error>.Err(CasesV0()[i].1), CasesV0()[i].0) == Errors.Pass
  {
    forall i | 0 <= i < |CasesV0()|
      ensures V0.IntoU32(Mock.Codec(), CasesV0()[i].0) == Done(Api.IntoU32(CasesV0()[i].1))
      ensures Errors.AssertRuntimeErr(V0Conversions(), Api.IntoU32,
        Errors.CallResult<(), Api.Error>.Err(CasesV0()[i].1), CasesV0()[i].0) == Errors.Pass
    {
      var (r, e) := CasesV0()[i];
      if r.Module? {
        MockModuleCode(r.error);
        MockModuleAssert(r.error);
      } else {
        RawAssert(e);
      }
    }
  }

  /** The collision on the mock runtime: `Raw(Module { index: 1, error: [0, 0] })` converts back
      as the module error `Assets(BalanceLow)`. */
  lemma {:induction false} CollisionExample()
    ensures var code := G.IntoU32(MockConfig(), G.Raw(Api.Module(Mock.AssetsIndex, [0, 0])));
      code.Done? && G.FromU32(MockConfig(), code.value) == Done(G.Module(Mock.BalanceLow))
  {
    MockModuleCode(Mock.BalanceLow);
  }

  /** Converting a code back and forth need not reproduce it: the code of
      `Raw(Module { index: 1, error: [0, 5] })` converts back as `Module(Assets(BalanceLow))`,
      because the mock decoder leaves the `5` unread, and that module error has another code. */
  lemma {:induction false} RecodeNotStable()
    ensures var code := G.IntoU32(MockConfig(), G.Raw(Api.Module(Mock.AssetsIndex, [0, 5])));
      code.Done? && G.FromU32(MockConfig(), code.value) == Done(G.Module(Mock.BalanceLow)) &&
      G.IntoU32(MockConfig(), G.Module(Mock.BalanceLow)) != code
  {
    var raw := Api.Module(Mock.AssetsIndex, [0, 5]);
    Api.FromIntoU32(raw);
    Api.FromIntoU32(ApiErrorOf(Mock.BalanceLow));
    MockModuleCode(Mock.BalanceLow);
    assert Api.Encode(raw)[1..] == [1, 0, 5];
    assert Mock.Decode([1, 0, 5]) == Some(Mock.BalanceLow);
  }
}
