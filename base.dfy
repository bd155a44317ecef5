/** Bytes, 32-bit status codes, and the panics that the modelled Rust code can raise. */
module Base {

  newtype byte = x: int | 0 <= x < 256

  /** Rust's `u32`. */
  newtype u32 = x: int | 0 <= x < 0x1_0000_0000

  datatype Option<+T> = None | Some(value: T)

  /** Why a modelled Rust function panics. */
  datatype Fault =
    | DecodeFailed      // a SCALE decode of the given bytes failed (`expect`, `unwrap`)
    | IndexOutOfBounds  // indexing or slicing a `Vec` past its end
    | ClockBeforeEpoch  // `SystemTime::duration_since` failed: "Time went backwards"
    | GenesisRejected   // the balances genesis could not be assimilated (`unwrap`)
    | CommitFailed      // `commit_all` failed: "Failed to commit changes"

  /** The outcome of a computation that either returns or panics. */
  datatype Run<+T> = Done(value: T) | Panic(fault: Fault)

  function Zeros(n: nat): (z: seq<byte>)
    ensures |z| == n
    ensures forall i :: 0 <= i < n ==> z[i] == 0
  {
    seq(n, _ => 0)
  }

  /** `Vec::resize(n, 0)`: cut the bytes down to `n`, or pad them with zero bytes up to `n`. */
  function Resize(s: seq<byte>, n: nat): (r: seq<byte>)
    ensures |r| == n
    ensures forall i :: 0 <= i < n ==> r[i] == if i < |s| then s[i] else 0
  {
    if n <= |s| then s[..n] else s + Zeros(n - |s|)
  }

  /** Reading a little-endian 4-byte buffer as a `u32` (`u32::from_le_bytes`). */
  function FromLe(b: seq<byte>): u32
    requires |b| == 4
  {
    (b[0] as int + 256 * b[1] as int + 65536 * b[2] as int + 16777216 * b[3] as int) as u32
  }

  /** `u32::to_le_bytes`: the inverse of `FromLe`. */
  function ToLe(v: u32): (b: seq<byte>)
    ensures |b| == 4 && FromLe(b) == v
    ensures b[0] as int == v as int % 256
  {
    var x := v as int;
    var q1 := x / 256;
    var q2 := q1 / 256;
    var q3 := q2 / 256;
    assert x == x % 256 + 256 * q1;
    assert q1 == q1 % 256 + 256 * q2;
    assert q2 == q2 % 256 + 256 * q3;
    assert q3 < 256;
    [(x % 256) as byte, (q1 % 256) as byte, (q2 % 256) as byte, q3 as byte]
  }

  lemma {:induction false} ToLeFromLe(b: seq<byte>)
    requires |b| == 4
    ensures ToLe(FromLe(b)) == b
  {
    var z := b[2] as int + 256 * b[3] as int;
    var y := b[1] as int + 256 * z;
    var x := b[0] as int + 256 * y;
    assert FromLe(b) as int == x;
    assert x % 256 == b[0] as int && x / 256 == y;
    assert y % 256 == b[1] as int && y / 256 == z;
    assert z % 256 == b[2] as int && z / 256 == b[3] as int;
  }

  /** The code two distinct 4-byte buffers read as is distinct. */
  lemma FromLeInjective(a: seq<byte>, b: seq<byte>)
    requires |a| == 4 && |b| == 4 && FromLe(a) == FromLe(b)
    ensures a == b
  {
    ToLeFromLe(a);
    ToLeFromLe(b);
  }
}
