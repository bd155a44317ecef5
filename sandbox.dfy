/** The `Sandbox` trait (`crates/ink-sandbox/src/lib.rs`) and the implementation `impl_sandbox!`
    gives it (`crates/ink-sandbox/src/macros.rs`, and the older `ink-sandbox/src/macros.rs`): a
    sandbox owns one set of externalities, and `dry_run` runs an action against it and then throws
    the action's storage changes away. */
module Sandbox {
  import opened Base
  import opened Storage
  import opened Externalities
  import BlockBuilder

  /** `UNIT`: the base unit of balances. */
  const UnitBalance: nat := 10_000_000_000
  /** Initial balance of the default account. */
  const InitAmount: nat := 100_000_000 * UnitBalance
  /** `DEFAULT_ACCOUNT`: the account id of 32 bytes, each 1. */
  function DefaultAccount(): AccountId {
    seq(32, _ => 1)
  }

  /** The genesis balances of the default sandbox. */
  function DefaultGenesis(): (g: seq<(AccountId, nat)>)
    ensures |g| == 1 && g[0].0 == DefaultAccount() && g[0].1 == 1_000_000_000_000_000_000
  {
    [(DefaultAccount(), InitAmount)]
  }

  /** The default genesis passes the balances genesis: the default account holds `INIT_AMOUNT`,
      which is also the whole issuance and fits the runtime's `u128` balance. */
  lemma {:induction false} DefaultGenesisAccepted(storage: Store)
    ensures var r := BlockBuilder.AssimilateBalances(storage, DefaultGenesis());
      r.Done? && r.value[Account(DefaultAccount())] == InitAmount && r.value[TotalIssuance] == InitAmount
    ensures InitAmount < 0x1_0000_0000_0000_0000_0000_0000_0000_0000
  {
    var g := DefaultGenesis();
    assert BlockBuilder.DistinctAccounts(g);
    assert BlockBuilder.Total(g) == InitAmount + BlockBuilder.Total(g[1..]);
  }

  /** `default_actor`. */
  function DefaultActor(): (a: AccountId)
    ensures forall i :: 0 <= i < |a| ==> a[i] == 1
  {
    DefaultAccount()
  }

  /** `RawOrigin`: the origin a call is dispatched with. */
  datatype Origin = Root | Signed(who: AccountId) | Unsigned

  /** `From<Option<AccountId>> for RawOrigin`. */
  function OriginOf(account: Option<AccountId>): Origin {
    match account
    case Some(who) => Signed(who)
    case None => Unsigned
  }

  /** The account an origin is signed by, if any; the inverse of `OriginOf` on every origin but
      `Root`. */
  function Signer(o: Origin): Option<AccountId> {
    match o
    case Signed(who) => Some(who)
    case _ => None
  }

  lemma {:induction false} SignerOfOrigin(account: Option<AccountId>)
    ensures Signer(OriginOf(account)) == account
    ensures OriginOf(account) != Root
  {
  }

  /** `convert_account_to_origin`: `Some(account).into()`, a call signed by the account. */
  function ConvertAccountToOrigin(account: AccountId): (o: Origin)
    ensures o == Signed(account) && Signer(o) == Some(account)
  {
    OriginOf(Some(account))
  }

  /** `Weight`: computation time and proof size. */
  datatype Weight = Weight(refTime: nat, proofSize: nat)

  /** `default_gas_limit`. */
  function DefaultGasLimit(): (w: Weight)
    ensures w.refTime == 100_000_000_000 && w.proofSize == 3_145_728
  {
    Weight(100_000_000_000, 3 * 1024 * 1024)
  }

  /** The trait's default `initialize_block`, which does nothing. */
  method DefaultInitializeBlock(ext: Externalities, height: nat, parentHash: Hash)
    ensures ext.Snapshot() == old(ext.Snapshot())
  {
  }

  /** The trait's default `finalize_block`: the default hash, whatever the height. */
  function DefaultFinalizeBlock(height: nat): (h: Hash)
    ensures h == ZeroHash
  {
    ZeroHash
  }

  /** What `dry_run` does to a sandbox in state `s`: the action runs, `commit_all` either succeeds
      (`commits`) or panics, and after a commit the backend is set back to the visible storage of
      `s`. */
  function DryRunOutcome<T>(s: State, action: State -> (State, T), commits: bool): (o: (Run<T>, State))
    ensures o.0.Done? <==> commits
    ensures commits ==>
      var after := action(s).0;
      o.0 == Done(action(s).1) && Visible(o.1) == Visible(s) && o.1.backend == Visible(s) &&
      o.1.overlay == map[] && o.1.extensions == after.extensions && o.1.hooks == after.hooks
    ensures !commits ==> o.0 == Panic(CommitFailed) && o.1 == action(s).0
  {
    var (after, result) := action(s);
    if commits then
      ApplyEmpty(Visible(s));
      (Done(result), State(Visible(s), map[], after.extensions, after.hooks))
    else (Panic(CommitFailed), after)
  }

  /** Whatever the action writes, a second `dry_run` starts from the storage the first started
      from, and no pending change is carried into it. */
  lemma {:induction false} DryRunsCompose<T, U>(
    s: State, first: State -> (State, T), second: State -> (State, U))
    ensures var mid := DryRunOutcome(s, first, true).1;
      Visible(DryRunOutcome(mid, second, true).1) == Visible(s) && mid.overlay == map[] &&
      DryRunOutcome(mid, second, true).1.backend == Visible(s)
  {
  }

  class Sandbox {
    const ext: Externalities

    constructor (ext: Externalities)
      ensures this.ext == ext
    {
      this.ext := ext;
    }

    /** `Default::default()`: the externalities of `new_ext` over the default genesis. */
    static method Default(systemGenesis: Store, clock: int) returns (r: Run<Sandbox>)
      ensures r.Done? <==> clock >= 0
      ensures r.Panic? ==> r.fault == ClockBeforeEpoch
      ensures r.Done? ==>
        var moment := BlockBuilder.UnixSeconds(clock).value;
        fresh(r.value) && fresh(r.value.ext) &&
        Account(DefaultAccount()) in r.value.ext.backend && TotalIssuance in r.value.ext.backend &&
        r.value.ext.backend[Account(DefaultAccount())] == InitAmount &&
        r.value.ext.backend[TotalIssuance] == InitAmount &&
        r.value.ext.backend == BlockBuilder.AssimilateBalances(systemGenesis, DefaultGenesis()).value &&
        r.value.ext.AsBackend() == Apply(r.value.ext.backend, BlockBuilder.InitializeWrites(1, ZeroHash, moment)) &&
        r.value.ext.extensions == map[] &&
        r.value.ext.hooks == BlockBuilder.InitializeHooks(1, ZeroHash, moment)
    {
      DefaultGenesisAccepted(systemGenesis);
      var e := BlockBuilder.NewExt(systemGenesis, DefaultGenesis(), clock);
      if e.Panic? {
        return Panic(e.fault);
      }
      var sandbox := new Sandbox(e.value);
      r := Done(sandbox);
    }

    /** `execute_with`. */
    method ExecuteWith<T>(execute: Store -> Effect<T>) returns (r: T)
      modifies ext
      ensures var e := execute(old(ext.AsBackend()));
        r == e.result && ext.overlay == old(ext.overlay) + e.writes &&
        ext.hooks == old(ext.hooks) + e.calls && ext.AsBackend() == Apply(old(ext.AsBackend()), e.writes)
      ensures ext.backend == old(ext.backend) && ext.extensions == old(ext.extensions)
    {
      r := ext.ExecuteWith(execute);
    }

    /** `dry_run`: back up the visible storage, run the action on the whole sandbox, commit, and
        restore the backend from the backup. */
    method DryRun<T>(action: State -> (State, T), commits: bool) returns (r: Run<T>)
      modifies ext
      ensures (r, ext.Snapshot()) == DryRunOutcome(old(ext.Snapshot()), action, commits)
      ensures r.Done? ==> ext.AsBackend() == old(ext.AsBackend())
    {
      var backup := ext.AsBackend();
      var (after, result) := action(ext.Snapshot());
      ext.Load(after);
      var committed := ext.CommitAll(commits);
      if committed.Panic? {
        return Panic(committed.fault);
      }
      ext.backend := backup;
      r := Done(result);
      ApplyEmpty(backup);
    }

    /** `register_extension`. */
    method RegisterExtension(e: Extension)
      modifies ext
      ensures ext.extensions == old(ext.extensions)[e.typeName := e]
      ensures ext.backend == old(ext.backend) && ext.overlay == old(ext.overlay) && ext.hooks == old(ext.hooks)
    {
      ext.RegisterExtension(e);
    }

    /** `initialize_block` of the implementation: the block builder's, inside the sandbox. */
    method InitializeBlock(height: nat, parentHash: Hash, clock: int) returns (r: Run<()>)
      modifies ext
      ensures r.Panic? <==> clock < 0
      ensures r.Done? ==>
        var moment := BlockBuilder.UnixSeconds(clock).value;
        ext.hooks == old(ext.hooks) + BlockBuilder.InitializeHooks(height, parentHash, moment) &&
        ext.AsBackend() == Apply(old(ext.AsBackend()), BlockBuilder.InitializeWrites(height, parentHash, moment))
      ensures ext.backend == old(ext.backend) && ext.extensions == old(ext.extensions)
    {
      r := BlockBuilder.InitializeBlock(ext, height, parentHash, clock);
    }

    /** `finalize_block` of the implementation: the block builder's, inside the sandbox. */
    method FinalizeBlock(height: nat, headerHash: Store -> Hash) returns (hash: Hash)
      modifies ext
      ensures ext.hooks == old(ext.hooks) + BlockBuilder.FinalizeHooks(height)
      ensures ext.AsBackend() == old(ext.AsBackend()) && hash == headerHash(old(ext.AsBackend()))
      ensures ext.backend == old(ext.backend) && ext.extensions == old(ext.extensions)
    {
      hash := BlockBuilder.FinalizeBlock(ext, height, headerHash);
    }
  }
}
