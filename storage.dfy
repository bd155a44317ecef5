/** The key-value storage under a sandbox: a committed backend and a pending overlay of changes,
    as `sp_io::TestExternalities` keeps them. */
module Storage {
  import opened Base

  /** `AccountId32`. */
  type AccountId = s: seq<byte> | |s| == 32 witness seq(32, _ => 0)

  /** A 256-bit hash, read as a number; `Default::default()` is zero. */
  type Hash = nat

  const ZeroHash: Hash := 0

  /** The storage items the model follows by name; every other item is an opaque key. */
  datatype Key =
    | Number               // frame_system: the current block number
    | ParentHash           // frame_system: the parent block's hash
    | Now                  // pallet_timestamp: the current moment
    | TotalIssuance        // pallet_balances: the sum of all balances
    | Account(who: AccountId) // an account's free balance
    | Item(bytes: seq<byte>)

  type Value = nat

  type Store = map<Key, Value>

  /** Pending changes: `Some(v)` sets a key, `None` removes it. */
  type Overlay = map<Key, Option<Value>>

  /** The storage visible through a backend with pending changes on top (`as_backend`). */
  function Apply(backend: Store, overlay: Overlay): (r: Store)
    ensures forall k :: k in r <==> if k in overlay then overlay[k].Some? else k in backend
    ensures forall k :: k in r ==> r[k] == if k in overlay then overlay[k].value else backend[k]
  {
    map k | k in backend.Keys + overlay.Keys && (k in overlay ==> overlay[k].Some?) ::
      if k in overlay then overlay[k].value else backend[k]
  }

  /** Without pending changes the backend is what is visible. */
  lemma ApplyEmpty(backend: Store)
    ensures Apply(backend, map[]) == backend
  {
  }

  /** Layering two sets of changes is applying their union, the later winning. */
  lemma {:induction false} ApplyCompose(backend: Store, first: Overlay, second: Overlay)
    ensures Apply(Apply(backend, first), second) == Apply(backend, first + second)
  {
    var lhs, rhs := Apply(Apply(backend, first), second), Apply(backend, first + second);
    assert forall k :: k in lhs <==> k in rhs;
    assert forall k :: k in lhs ==> lhs[k] == rhs[k];
  }

  /** Setting one key on top of the changes sets it in what is visible. */
  lemma {:induction false} ApplySet(backend: Store, overlay: Overlay, k: Key, v: Value)
    ensures Apply(backend, overlay[k := Some(v)]) == Apply(backend, overlay)[k := v]
  {
    ApplyCompose(backend, overlay, map[k := Some(v)]);
    assert overlay + map[k := Some(v)] == overlay[k := Some(v)];
    var lhs, rhs := Apply(Apply(backend, overlay), map[k := Some(v)]), Apply(backend, overlay)[k := v];
    assert forall j :: j in lhs <==> j in rhs;
    assert forall j :: j in lhs ==> lhs[j] == rhs[j];
  }
}
