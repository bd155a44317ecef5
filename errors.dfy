/** `assert_runtime_err_inner` (`crates/pop-drink/src/errors/mod.rs`, repeated verbatim in
    `crates/pop-drink/src/error.rs`): asserts that a contract result is the expected runtime error
    by comparing status codes. */
module Errors {
  import opened Base

  /** A contract method's result: `Ok`, or `Err` of an error that converts to a `u32`. */
  datatype CallResult<R, E> = Ok(value: R) | Err(error: E)

  /** What a failed code assertion puts on its left: `Ok()` or the decoded runtime error. */
  datatype Left<T> = OkResult | Got(error: T)

  /** An assertion's outcome: it passes, panics with a `left == right` message, or panics earlier
      inside one of the conversions. */
  datatype Verdict<L, R> = Pass | Fail(left: L, right: R) | Crash(fault: Fault)

  /** A runtime error type's `Into<u32>` and `From<u32>`; either may panic. */
  datatype Conversions<!T> = Conversions(into: T -> Run<u32>, from: u32 -> Run<T>)

  /** The head of every `left == right` panic message, up to the left side's text. */
  const Header: string := "assertion `left == right` failed\n  left: "
  /** What separates the left side's text from the right side's. */
  const Separator: string := "\n right: "

  /** The assertion, with `errorCode` the `Into<u32>` of the contract's error type. It passes
      exactly when the result is an error whose code is the expected error's code (and converting
      that code back does not panic); a failure shows the expected error normalised through its
      own code on the right, and on the left `Ok()` or the result's error decoded from its code. */
  function AssertRuntimeErr<R, E, T>(
    conv: Conversions<T>, errorCode: E -> u32, result: CallResult<R, E>, expected: T
  ): (v: Verdict<Left<T>, T>)
    ensures v == Pass <==>
      conv.into(expected).Done? && conv.from(conv.into(expected).value).Done? &&
      result.Err? && errorCode(result.error) == conv.into(expected).value
    ensures v.Fail? ==> conv.into(expected).Done? && conv.from(conv.into(expected).value) == Done(v.right)
    ensures result.Ok? ==> v.Crash? || (v.Fail? && v.left == OkResult)
    ensures v.Fail? && v.left.Got? ==>
      result.Err? && errorCode(result.error) != conv.into(expected).value &&
      conv.from(errorCode(result.error)) == Done(v.left.error)
  {
    match conv.into(expected)
    case Panic(f) => Crash(f)
    case Done(expectedCode) =>
      match conv.from(expectedCode)
      case Panic(f) => Crash(f)
      case Done(expectedError) =>
        match result
        case Ok(_) => Fail(OkResult, expectedError)
        case Err(error) =>
          var code := errorCode(error);
          if code == expectedCode then Pass
          else
            match conv.from(code)
            case Panic(f) => Crash(f)
            case Done(shown) => Fail(Got(shown), expectedError)
  }

  /** The panic text: the header, the left side (`Ok()`, without quotes, for an `Ok` result), the
      separator and the expected error. */
  function PanicText<T>(v: Verdict<Left<T>, T>, show: T -> string): (t: string)
    requires v.Fail?
    ensures |t| >= |Header| + |Separator| + |show(v.right)| && t[..|Header|] == Header
    ensures t[|t| - |show(v.right)|..] == show(v.right)
    ensures t[|t| - |show(v.right)| - |Separator|..|t| - |show(v.right)|] == Separator
    ensures v.left == OkResult ==>
      |t| == |Header| + 4 + |Separator| + |show(v.right)| &&
      t[|Header|..|Header| + 4] == "Ok()"
    ensures v.left.Got? ==>
      |t| == |Header| + |show(v.left.error)| + |Separator| + |show(v.right)| &&
      t[|Header|..|Header| + |show(v.left.error)|] == show(v.left.error)
  {
    var left := match v.left
      case OkResult => "Ok()"
      case Got(e) => show(e);
    var t := Header + left + Separator + show(v.right);
    assert t[..|Header|] == Header;
    assert t[|Header|..|Header| + |left|] == left;
    t
  }

  /** An `Ok` result always fails, with `Ok()` on the left and the expected error, normalised
      through its own code, on the right; a different code fails with both codes decoded. */
  lemma {:induction false} FailureSides<R, E, T>(
    conv: Conversions<T>, errorCode: E -> u32, result: CallResult<R, E>, expected: T)
    requires conv.into(expected).Done? && conv.from(conv.into(expected).value).Done?
    ensures var expectedCode := conv.into(expected).value;
      var right := conv.from(expectedCode).value;
      var v := AssertRuntimeErr(conv, errorCode, result, expected);
      (result.Ok? ==> v == Fail(OkResult, right)) &&
      (result.Err? && errorCode(result.error) != expectedCode ==>
        if conv.from(errorCode(result.error)).Done?
        then v == Fail(Got(conv.from(errorCode(result.error)).value), right)
        else v == Crash(conv.from(errorCode(result.error)).fault))
  {
  }

  /** The verdict depends on the two codes alone: results with the same shape and the same error
      code, judged against expected errors with the same code, get the same verdict. */
  lemma {:induction false} CodesOnly<R, E, T>(
    conv: Conversions<T>, errorCode: E -> u32,
    result1: CallResult<R, E>, result2: CallResult<R, E>, expected1: T, expected2: T)
    requires result1.Ok? <==> result2.Ok?
    requires result1.Err? ==> errorCode(result1.error) == errorCode(result2.error)
    requires conv.into(expected1) == conv.into(expected2)
    ensures AssertRuntimeErr(conv, errorCode, result1, expected1) ==
            AssertRuntimeErr(conv, errorCode, result2, expected2)
  {
  }
}
