/** `BlockBuilder` (`crates/ink-sandbox/src/macros.rs`; the same code appears in
    `ink-sandbox/src/macros.rs` and `drink/src/sandbox.rs`): building the genesis externalities and
    opening and closing blocks by calling the runtime's hooks in a fixed order. */
module BlockBuilder {
  import opened Base
  import opened Storage
  import opened Externalities

  /** `ExistentialDeposit` of the sandbox runtime's balances pallet. */
  const ExistentialDeposit: nat := 1

  const NanosPerSecond: nat := 1_000_000_000

  /** `SystemTime::now().duration_since(UNIX_EPOCH).expect("Time went backwards").as_secs()`, with
      the wall clock given as nanoseconds since the Unix epoch (negative before it). */
  function UnixSeconds(clock: int): (r: Run<nat>)
    ensures r.Panic? <==> clock < 0
    ensures r.Panic? ==> r.fault == ClockBeforeEpoch
    ensures r.Done? ==> r.value * NanosPerSecond <= clock < (r.value + 1) * NanosPerSecond
  {
    if clock < 0 then Panic(ClockBeforeEpoch) else Done(clock / NanosPerSecond)
  }

  /** The storage a sequence of hook calls writes, a later write to a key winning. */
  function Writes(hooks: seq<Hook>): Overlay {
    if hooks == [] then map[] else HookWrites(hooks[0]) + Writes(hooks[1..])
  }

  /** The storage `initialize_block` writes. */
  function InitializeWrites(height: nat, parentHash: Hash, moment: nat): Overlay {
    map[Number := Some(height), ParentHash := Some(parentHash), Now := Some(moment)]
  }

  datatype Pallet = Balances | Timestamp | Contracts

  /** The pallet whose `on_initialize` or `on_finalize` a hook is. */
  function PalletHookOf(h: Hook): Option<Pallet> {
    match h
    case BalancesOnInitialize(_) => Some(Balances)
    case TimestampOnInitialize(_) => Some(Timestamp)
    case ContractsOnInitialize(_) => Some(Contracts)
    case ContractsOnFinalize(_) => Some(Contracts)
    case TimestampOnFinalize(_) => Some(Timestamp)
    case BalancesOnFinalize(_) => Some(Balances)
    case _ => None
  }

  /** The pallets whose `on_initialize`/`on_finalize` hooks appear in `hooks`, in order. */
  function PalletOrder(hooks: seq<Hook>): (ps: seq<Pallet>)
    ensures |ps| <= |hooks|
  {
    if hooks == [] then []
    else
      var rest := PalletOrder(hooks[1..]);
      match PalletHookOf(hooks[0])
      case Some(p) => [p] + rest
      case None => rest
  }

  /** A pallet is in the order exactly when some hook in the sequence is one of its hooks. */
  lemma {:induction false} PalletOrderMembers(hooks: seq<Hook>, p: Pallet)
    ensures p in PalletOrder(hooks) <==> exists i :: 0 <= i < |hooks| && PalletHookOf(hooks[i]) == Some(p)
  {
    if hooks != [] {
      PalletOrderMembers(hooks[1..], p);
      if p in PalletOrder(hooks[1..]) {
        var j :| 0 <= j < |hooks[1..]| && PalletHookOf(hooks[1..][j]) == Some(p);
        assert PalletHookOf(hooks[j + 1]) == Some(p);
      }
      if i :| 0 <= i < |hooks| && PalletHookOf(hooks[i]) == Some(p) {
        if i > 0 {
          assert PalletHookOf(hooks[1..][i - 1]) == Some(p);
        }
      }
    }
  }

  /** The hooks `initialize_block` calls, in order, when the clock reads `moment` seconds: the
      system pallet opens the block, then balances, timestamp and contracts are initialised, and
      the block number, parent hash and moment are what they write. */
  function InitializeHooks(height: nat, parentHash: Hash, moment: nat): (r: seq<Hook>)
    ensures |r| == 7 && r[0] == ResetEvents && r[1] == SystemInitialize(height, parentHash)
    ensures r[|r| - 1] == NoteFinishedInitialize
    ensures r[2] == BalancesOnInitialize(height) && r[3] == SetTimestamp(moment)
    ensures PalletOrder(r) == [Balances, Timestamp, Contracts]
    ensures Writes(r) == InitializeWrites(height, parentHash, moment)
  {
    var r := [ ResetEvents, SystemInitialize(height, parentHash), BalancesOnInitialize(height),
      SetTimestamp(moment), TimestampOnInitialize(height), ContractsOnInitialize(height),
      NoteFinishedInitialize ];
    assert PalletOrder(r[6..]) == [] && Writes(r[6..]) == map[];
    assert PalletOrder(r[5..]) == [Contracts] && Writes(r[5..]) == map[];
    assert PalletOrder(r[4..]) == [Timestamp, Contracts] && Writes(r[4..]) == map[];
    assert PalletOrder(r[3..]) == [Timestamp, Contracts] && Writes(r[3..]) == map[Now := Some(moment)];
    assert PalletOrder(r[2..]) == [Balances, Timestamp, Contracts] && Writes(r[2..]) == Writes(r[3..]);
    assert PalletOrder(r[1..]) == PalletOrder(r[2..]);
    assert Writes(r[1..]) == map[Number := Some(height), ParentHash := Some(parentHash)] + Writes(r[2..]);
    assert Writes(r[1..]) == InitializeWrites(height, parentHash, moment);
    r
  }

  /** The hooks `finalize_block` calls, in order: contracts, timestamp and balances are finalised,
      then the system pallet closes the block; none of them writes storage this model follows. */
  function FinalizeHooks(height: nat): (r: seq<Hook>)
    ensures |r| == 4 && r[|r| - 1] == SystemFinalize
    ensures PalletOrder(r) == [Contracts, Timestamp, Balances]
    ensures Writes(r) == map[]
  {
    var r := [ ContractsOnFinalize(height), TimestampOnFinalize(height), BalancesOnFinalize(height),
      SystemFinalize ];
    assert PalletOrder(r[3..]) == [] && Writes(r[3..]) == map[];
    assert PalletOrder(r[2..]) == [Balances] && Writes(r[2..]) == map[];
    assert PalletOrder(r[1..]) == [Timestamp, Balances] && Writes(r[1..]) == map[];
    r
  }

  function Reverse<T>(s: seq<T>): (r: seq<T>)
    ensures |r| == |s|
    ensures forall k :: 0 <= k < |s| ==> r[k] == s[|s| - 1 - k]
  {
    if s == [] then [] else Reverse(s[1..]) + [s[0]]
  }

  /** Blocks are closed pallet by pallet in the reverse of the order they were opened in. */
  lemma {:induction false} FinalizeReversesInitialize(height: nat, parentHash: Hash, moment: nat)
    ensures PalletOrder(FinalizeHooks(height)) == Reverse(PalletOrder(InitializeHooks(height, parentHash, moment)))
  {
    var order := PalletOrder(InitializeHooks(height, parentHash, moment));
    assert Reverse(order) == [Contracts, Timestamp, Balances];
  }

  /** What `initialize_block`'s writes leave visible. */
  lemma {:induction false} InitializeVisible(s: Store, height: nat, parentHash: Hash, moment: nat)
    ensures var v := Apply(s, InitializeWrites(height, parentHash, moment));
      v == s[Number := height][ParentHash := parentHash][Now := moment]
  {
    var v := Apply(s, InitializeWrites(height, parentHash, moment));
    var w := s[Number := height][ParentHash := parentHash][Now := moment];
    assert forall k :: k in v <==> k in w;
  }

  /** The first half of `initialize_block`: the system pallet opens the block. */
  method OpenSystem(ext: Externalities, height: nat, parentHash: Hash)
    modifies ext
    ensures ext.hooks == old(ext.hooks) + [ResetEvents, SystemInitialize(height, parentHash), BalancesOnInitialize(height)]
    ensures ext.overlay == old(ext.overlay) + map[Number := Some(height), ParentHash := Some(parentHash)]
    ensures ext.backend == old(ext.backend) && ext.extensions == old(ext.extensions)
  {
    ext.Call(ResetEvents);
    ext.Call(SystemInitialize(height, parentHash));
    ext.Call(BalancesOnInitialize(height));
  }

  /** The second half of `initialize_block`: the moment is set and the remaining pallets open. */
  method OpenPallets(ext: Externalities, height: nat, moment: nat)
    modifies ext
    ensures ext.hooks == old(ext.hooks) +
      [SetTimestamp(moment), TimestampOnInitialize(height), ContractsOnInitialize(height), NoteFinishedInitialize]
    ensures ext.overlay == old(ext.overlay) + map[Now := Some(moment)]
    ensures ext.backend == old(ext.backend) && ext.extensions == old(ext.extensions)
  {
    ext.Call(SetTimestamp(moment));
    ext.Call(TimestampOnInitialize(height));
    ext.Call(ContractsOnInitialize(height));
    ext.Call(NoteFinishedInitialize);
  }

  /** `initialize_block(height, parent_hash)`, called inside `ext`. */
  method InitializeBlock(ext: Externalities, height: nat, parentHash: Hash, clock: int)
    returns (r: Run<()>)
    modifies ext
    ensures r.Panic? <==> clock < 0
    ensures r.Panic? ==>
      r.fault == ClockBeforeEpoch &&
      ext.hooks == old(ext.hooks) + InitializeHooks(height, parentHash, 0)[..3]
    ensures r.Done? ==>
      var moment := UnixSeconds(clock).value;
      ext.hooks == old(ext.hooks) + InitializeHooks(height, parentHash, moment) &&
      ext.AsBackend() == Apply(old(ext.AsBackend()), InitializeWrites(height, parentHash, moment))
    ensures ext.backend == old(ext.backend) && ext.extensions == old(ext.extensions)
  {
    ghost var pending, called := ext.overlay, ext.hooks;
    OpenSystem(ext, height, parentHash);
    var now := UnixSeconds(clock);
    if now.Panic? {
      return Panic(now.fault);
    }
    OpenPallets(ext, height, now.value);
    assert ext.hooks == called + InitializeHooks(height, parentHash, now.value);
    ghost var w1, w2 := map[Number := Some(height), ParentHash := Some(parentHash)], map[Now := Some(now.value)];
    assert w1 + w2 == InitializeWrites(height, parentHash, now.value);
    assert ext.overlay == pending + InitializeWrites(height, parentHash, now.value);
    ApplyCompose(ext.backend, pending, InitializeWrites(height, parentHash, now.value));
    r := Done(());
  }

  /** `finalize_block(height)`: the returned hash is that of the header `frame_system::finalize`
      builds, given here as `headerHash` of the storage it sees. */
  method FinalizeBlock(ext: Externalities, height: nat, headerHash: Store -> Hash)
    returns (hash: Hash)
    modifies ext
    ensures ext.hooks == old(ext.hooks) + FinalizeHooks(height)
    ensures ext.AsBackend() == old(ext.AsBackend())
    ensures ext.backend == old(ext.backend) && ext.extensions == old(ext.extensions)
    ensures hash == headerHash(old(ext.AsBackend()))
  {
    ghost var pending := ext.overlay;
    ext.Call(ContractsOnFinalize(height));
    ext.Call(TimestampOnFinalize(height));
    ext.Call(BalancesOnFinalize(height));
    ext.Call(SystemFinalize);
    assert ext.overlay == pending;
    hash := headerHash(ext.AsBackend());
  }

  /** No account appears twice in the genesis balances. */
  predicate DistinctAccounts(balances: seq<(AccountId, nat)>) {
    forall i, j :: 0 <= i < j < |balances| ==> balances[i].0 != balances[j].0
  }

  function Accounts(balances: seq<(AccountId, nat)>): set<Key> {
    set i | 0 <= i < |balances| :: Account(balances[i].0)
  }

  function Total(balances: seq<(AccountId, nat)>): nat {
    if balances == [] then 0 else balances[0].1 + Total(balances[1..])
  }

  /** Endow each account with its balance, in order. */
  function Endow(storage: Store, balances: seq<(AccountId, nat)>): (r: Store)
    requires DistinctAccounts(balances)
    ensures r.Keys == storage.Keys + Accounts(balances)
    ensures forall i :: 0 <= i < |balances| ==> r[Account(balances[i].0)] == balances[i].1
    ensures forall k :: k in storage && k !in Accounts(balances) ==> r[k] == storage[k]
    decreases |balances|
  {
    if balances == [] then storage
    else
      var (who, free) := balances[0];
      var r := Endow(storage[Account(who) := free], balances[1..]);
      assert Accounts(balances) == {Account(who)} + Accounts(balances[1..]);
      assert forall i :: 1 <= i < |balances| ==> balances[i] == balances[1..][i - 1];
      assert Account(who) !in Accounts(balances[1..]);
      r
  }

  /** The balances genesis assimilated into `storage`: the total issuance is recorded and every
      account endowed; a balance below the existential deposit or a repeated account panics. */
  function AssimilateBalances(storage: Store, balances: seq<(AccountId, nat)>): (r: Run<Store>)
    ensures r.Done? <==>
      DistinctAccounts(balances) && forall i :: 0 <= i < |balances| ==> balances[i].1 >= ExistentialDeposit
    ensures r.Panic? ==> r.fault == GenesisRejected
    ensures r.Done? ==>
      r.value.Keys == storage.Keys + Accounts(balances) + {TotalIssuance} &&
      r.value[TotalIssuance] == Total(balances) &&
      (forall i :: 0 <= i < |balances| ==> r.value[Account(balances[i].0)] == balances[i].1) &&
      forall k :: k in storage && k !in Accounts(balances) && k != TotalIssuance ==> r.value[k] == storage[k]
  {
    if exists i :: 0 <= i < |balances| && balances[i].1 < ExistentialDeposit then Panic(GenesisRejected)
    else if !DistinctAccounts(balances) then Panic(GenesisRejected)
    else
      assert TotalIssuance !in Accounts(balances);
      Done(Endow(storage[TotalIssuance := Total(balances)], balances))
  }

  /** `new_ext(balances)`: system genesis storage (`systemGenesis`, built outside this model) with
      the balances assimilated, then block 1 opened on the zero parent hash. */
  method NewExt(systemGenesis: Store, balances: seq<(AccountId, nat)>, clock: int)
    returns (r: Run<Externalities>)
    ensures r.Done? <==> AssimilateBalances(systemGenesis, balances).Done? && clock >= 0
    ensures r.Panic? ==> r.fault == if AssimilateBalances(systemGenesis, balances).Panic?
      then GenesisRejected else ClockBeforeEpoch
    ensures r.Done? ==>
      var genesis, moment := AssimilateBalances(systemGenesis, balances).value, UnixSeconds(clock).value;
      fresh(r.value) && r.value.backend == genesis && r.value.extensions == map[] &&
      r.value.hooks == InitializeHooks(1, ZeroHash, moment) &&
      r.value.AsBackend() == Apply(genesis, InitializeWrites(1, ZeroHash, moment))
  {
    var assimilated := AssimilateBalances(systemGenesis, balances);
    if assimilated.Panic? {
      return Panic(assimilated.fault);
    }
    var ext := new Externalities(assimilated.value);
    var init := InitializeBlock(ext, 1, ZeroHash, clock);
    if init.Panic? {
      return Panic(init.fault);
    }
    r := Done(ext);
  }
}
