/** The assertion helpers of `crates/pop-drink/src/macros.rs`: `assert_err_inner`,
    `assert_last_event_inner` and the panic message format `assert_message`. */
module Macros {
  import opened Base
  import Scale
  import Errors

  /** `assert_message`: the text of a failed `left == right` assertion, given the `Debug` output of
      both sides. */
  function AssertMessage(left: string, right: string): (m: string)
    ensures |m| == |Errors.Header| + |left| + |Errors.Separator| + |right|
    ensures m[..|Errors.Header|] == Errors.Header && m[|Errors.Header|..|Errors.Header| + |left|] == left
    ensures m[|Errors.Header| + |left|..|m| - |right|] == Errors.Separator
    ensures m[|m| - |right|..] == right
  {
    Errors.Header + left + Errors.Separator + right
  }

  /** `Debug` of a printable ASCII string literal without quotes or backslashes in it: the literal in quotes. */
  function DebugStr(s: string): (d: string)
    requires forall i :: 0 <= i < |s| ==> ' ' <= s[i] <= '~' && s[i] != '"' && s[i] != '\\'
    ensures |d| == |s| + 2 && d[0] == '"' && d[|d| - 1] == '"' && d[1..|d| - 1] == s
  {
    "\"" + s + "\""
  }

  /** In a message whose left side holds no line break, the first line break after the header
      ends the left side. */
  lemma {:induction false} LeftEndsAtBreak(left: string, right: string)
    requires forall i :: 0 <= i < |left| ==> left[i] != '\n'
    ensures var m, h := AssertMessage(left, right), |Errors.Header|;
      m[h + |left|] == '\n' && forall i :: h <= i < h + |left| ==> m[i] != '\n'
  {
    var m, h := AssertMessage(left, right), |Errors.Header|;
    assert m == Errors.Header + left + Errors.Separator + right;
    assert m[h + |left|] == Errors.Separator[0];
    forall i | h <= i < h + |left| ensures m[i] != '\n' {
      assert m[i] == left[i - h];
    }
  }

  /** A message names both of its sides: when neither left side holds a line break, equal messages
      have equal sides. */
  lemma {:induction false} MessageDeterminesSides(l1: string, r1: string, l2: string, r2: string)
    requires forall i :: 0 <= i < |l1| ==> l1[i] != '\n'
    requires forall i :: 0 <= i < |l2| ==> l2[i] != '\n'
    requires AssertMessage(l1, r1) == AssertMessage(l2, r2)
    ensures l1 == l2 && r1 == r2
  {
    var m, h := AssertMessage(l1, r1), |Errors.Header|;
    LeftEndsAtBreak(l1, r1);
    LeftEndsAtBreak(l2, r2);
    assert |l1| == |l2|;
    assert l1 == m[h..h + |l1|] == l2;
    assert r1 == m[|m| - |r1|..] == r2;
  }

  /** `assert_err_inner`: the same decision as `errors::assert_runtime_err_inner`. */
  function AssertErr<R, E, T>(
    conv: Errors.Conversions<T>, errorCode: E -> u32, result: Errors.CallResult<R, E>, expected: T
  ): (v: Errors.Verdict<Errors.Left<T>, T>)
    ensures v == Errors.Verdict.Pass <==>
      conv.into(expected).Done? && conv.from(conv.into(expected).value).Done? &&
      result.Err? && errorCode(result.error) == conv.into(expected).value
    ensures result.Ok? ==> v.Crash? || v.left == Errors.OkResult
  {
    Errors.AssertRuntimeErr(conv, errorCode, result, expected)
  }

  /** The panic text of `assert_err_inner`, which passes `&"Ok()"` to `assert_message` and so prints
      the literal with quotes. */
  function ErrText<T>(v: Errors.Verdict<Errors.Left<T>, T>, show: T -> string): (t: string)
    requires v.Fail?
    ensures |t| >= |Errors.Header| + |Errors.Separator| + |show(v.right)|
    ensures t[..|Errors.Header|] == Errors.Header
    ensures t[|t| - |show(v.right)|..] == show(v.right)
    ensures t[|t| - |show(v.right)| - |Errors.Separator|..|t| - |show(v.right)|] == Errors.Separator
    ensures v.left == Errors.OkResult ==>
      |t| == |Errors.Header| + 6 + |Errors.Separator| + |show(v.right)| &&
      t[|Errors.Header|..|Errors.Header| + 6] == "\"Ok()\""
    ensures v.left.Got? ==>
      |t| == |Errors.Header| + |show(v.left.error)| + |Errors.Separator| + |show(v.right)| &&
      t[|Errors.Header|..|Errors.Header| + |show(v.left.error)|] == show(v.left.error)
  {
    var left := match v.left
      case OkResult => DebugStr("Ok()")
      case Got(e) => show(e);
    AssertMessage(left, show(v.right))
  }

  /** For an `Ok` result the two assertion helpers print different left sides: `errors` prints
      `Ok()`, `macros` prints `"Ok()"`. */
  lemma {:induction false} OkLeftTexts<T>(expected: T, show: T -> string)
    ensures var v := Errors.Verdict.Fail(Errors.OkResult, expected);
      ErrText(v, show) == AssertMessage("\"Ok()\"", show(expected)) &&
      Errors.PanicText(v, show) == AssertMessage("Ok()", show(expected)) &&
      ErrText(v, show) != Errors.PanicText(v, show)
  {
    var v := Errors.Verdict.Fail(Errors.OkResult, expected);
    assert |ErrText(v, show)| == |Errors.PanicText(v, show)| + 2;
  }

  /** What a failed `assert_last_event` puts on its left. */
  datatype EventLeft<E> = NoEvent | Decoded(event: E)

  /** `assert_last_event_inner`, given the last contract event of the session (if any). */
  function AssertLastEvent<E>(codec: Scale.Codec<E>, last: Option<seq<byte>>, event: E)
    : (v: Errors.Verdict<EventLeft<E>, E>)
    ensures v == Errors.Pass <==> last == Some(codec.encode(event))
    ensures last.None? ==> v == Errors.Fail(NoEvent, event)
    ensures v.Fail? ==> v.right == event
    ensures v.Crash? ==> v.fault == DecodeFailed && last.Some? && codec.decode(last.value).None?
  {
    match last
    case None => Errors.Fail(NoEvent, event)
    case Some(bytes) =>
      if bytes == codec.encode(event) then Errors.Pass
      else
        match codec.decode(bytes)
        case Some(d) => Errors.Fail(Decoded(d), event)
        case None => Errors.Crash(DecodeFailed)
  }

  /** The panic text of `assert_last_event_inner`; a missing event prints as `"None"`. */
  function EventText<E>(v: Errors.Verdict<EventLeft<E>, E>, show: E -> string): (t: string)
    requires v.Fail?
    ensures |t| >= |Errors.Header| + |Errors.Separator| + |show(v.right)|
    ensures t[..|Errors.Header|] == Errors.Header
    ensures t[|t| - |show(v.right)|..] == show(v.right)
    ensures t[|t| - |show(v.right)| - |Errors.Separator|..|t| - |show(v.right)|] == Errors.Separator
    ensures v.left == NoEvent ==>
      |t| == |Errors.Header| + 6 + |Errors.Separator| + |show(v.right)| &&
      t[|Errors.Header|..|Errors.Header| + 6] == "\"None\""
    ensures v.left.Decoded? ==>
      |t| == |Errors.Header| + |show(v.left.event)| + |Errors.Separator| + |show(v.right)| &&
      t[|Errors.Header|..|Errors.Header| + |show(v.left.event)|] == show(v.left.event)
  {
    var left := match v.left
      case NoEvent => DebugStr("None")
      case Decoded(d) => show(d);
    AssertMessage(left, show(v.right))
  }

  /** When the last event's bytes are not the expected event's encoding, the assertion fails with
      the event decoded from those bytes on the left, or panics when they do not decode. */
  lemma {:induction false} LastEventVerdict<E>(codec: Scale.Codec<E>, last: Option<seq<byte>>, event: E)
    requires last.Some? && last.value != codec.encode(event)
    ensures match codec.decode(last.value)
      case Some(d) => AssertLastEvent(codec, last, event) == Errors.Fail(Decoded(d), event)
      case None => AssertLastEvent(codec, last, event) == Errors.Crash(DecodeFailed)
  {
  }

  /** Because the event is decoded from the front of the bytes, an event followed by stray bytes
      fails the assertion while both sides show the same event. */
  lemma {:induction false} TrailingBytesLookEqual<E(!new)>(codec: Scale.Codec<E>, event: E, rest: seq<byte>)
    requires Scale.PrefixDecoding(codec) && rest != []
    ensures AssertLastEvent(codec, Some(codec.encode(event) + rest), event) ==
      Errors.Fail(Decoded(event), event)
  {
    assert |codec.encode(event) + rest| > |codec.encode(event)|;
  }
}
