# pop-drink error codes and sandbox lifecycle, in Dafny

This project models two parts of the pop-drink testing toolkit for ink! smart contracts.

1. **The error codec.** A contract returns a flat 4-byte status code. The toolkit's structured
   test error (`RuntimeError::Module(moduleError) | RuntimeError::Raw(popApiError)`) converts to
   and from that code in two versions:
   - the generic `RuntimeErrorConfig` version (`crates/pop-drink/src/error.rs`), here instantiated with the version-0 Pop API error;
   - the Pop API version-0 version (`crates/pop-drink/src/errors/v0.rs`).

   The assertion helpers decide pass or fail on those codes alone and format the panic message:
   `assert_runtime_err_inner`, `assert_err_inner`, `assert_last_event_inner` and `assert_message`.
2. **The sandbox.** A sandbox owns `TestExternalities`, which hold three things:
   - a committed backend;
   - a pending overlay;
   - the registered extensions.

   The model adds a fourth: a log of the runtime hooks that were called. The log belongs to the
   model, not to `TestExternalities`. It lets the block hooks be stated without modelling the
   pallets.

   `dry_run` backs up the visible storage, runs an action, commits, and restores the backend.
   `BlockBuilder` opens and closes blocks by calling the pallets' hooks in a fixed order, and
   `new_ext` builds the genesis externalities.

Modules:
- `Base`: bytes, `u32`, little-endian conversion, `Vec::resize`, and panics as `Run<T>`.
- `Scale`: a codec as an encode/decode pair, and the prefix-decoding property.
- `PopApiV0`: the version-0 Pop API error.
- `MockRuntime`: the test runtime's `RuntimeError`.
- `RuntimeErrors`, `RuntimeErrorsV0`: the two conversions.
- `Errors`, `Macros`: the assertions.
- `ErrorVectors`: the test vectors.
- `Storage`, `Externalities`: backend, overlay and hook log.
- `BlockBuilder`.
- `Sandbox`.

Panics are values: `Run<T> = Done(value) | Panic(fault)`. An assertion's outcome is a
`Verdict = Pass | Fail(left, right) | Crash(fault)`. `Fail` is the `left == right` panic, and
`Crash` is a panic raised inside a conversion.

A status code need not survive a conversion back and forth. A raw Pop API error whose encoding starts with `MODULE_INDEX` is read back as a module error. That module error drops whatever bytes the module decoder leaves unread, so its code can differ from the original (`ErrorVectors.RecodeNotStable`). The round trips that do hold are `RuntimeErrors.ModuleRoundTrip` and `RuntimeErrors.RawRoundTrip`.

Three behaviours of `initialize_block` worth noting:
- it calls `set_timestamp` between the balances and timestamp `on_initialize`
  hooks, not after all of them;
- it sets the timestamp in whole seconds;
- nothing in `BlockBuilder` forces the height to grow by one per block. The height is whatever
  the caller passes, and `new_ext` always opens block 1.

## Model

| member | source | states |
|---|---|---|
| Base.Resize | crates/pop-drink/src/error.rs:47 | `resize(n, 0)` gives exactly `n` bytes: the input's bytes where it has them, zeros after |
| Base.ToLe | crates/pop-drink/src/error.rs:52 | the 4 little-endian bytes of a code read back as that code; the low byte is the code mod 256 |
| Base.ToLeFromLe | crates/pop-drink/src/error.rs:48-52 | reading 4 bytes as a code and writing it back gives the same 4 bytes |
| Base.FromLeInjective | crates/pop-drink/src/error.rs:48-52 | distinct 4-byte buffers give distinct codes |
| Scale.DecodesPadded | crates/pop-drink/src/error.rs:45-48 | a prefix decoder decodes a zero-padded encoding to the encoded value |
| PopApiV0.Encode | crates/pop-drink/src/error.rs:63-64 | an encoding is 1 to 4 bytes, and starts with the `Module` index exactly for `Module` errors |
| PopApiV0.DecodeEncode | crates/pop-drink/src/error.rs:50 | decoding an encoding followed by any bytes gives the error back |
| PopApiV0.CodecIsPrefixDecoding | crates/pop-drink/src/error.rs:50 | the Pop API codec is a prefix decoder |
| PopApiV0.DecodeReadsPrefix | crates/pop-drink/src/error.rs:62-63 | a successful decode consumed a whole encoding from the front of the bytes |
| PopApiV0.FromIntoU32 | crates/pop-drink/src/error.rs:52 | converting an error to its code and back is the identity |
| PopApiV0.Decode | crates/pop-drink/src/error.rs:48-50 | no bytes decode to nothing; a decoded error re-encodes starting with the first byte read; four bytes starting with 3 decode as `Module` of the next three |
| PopApiV0.FromU32 | crates/pop-drink/src/error.rs:62 | a code's low byte is the variant index of the error it converts to, unless it converts to `DecodingFailed` |
| PopApiV0.IntoU32 | crates/pop-drink/src/error.rs:52 | an error's code is its encoding zero-padded to four bytes, read little-endian |
| PopApiV0.FromU32Module | crates/pop-drink/src/errors/v0.rs:55-57 | a code with low byte 3 converts to `Module` holding the code's other three bytes |
| MockRuntime.Encode | crates/pop-drink/src/mock.rs:21-30 | a mock error encodes as its pallet's index in `construct_runtime!` order, then its variant |
| MockRuntime.CodecIsPrefixDecoding | crates/pop-drink/src/error.rs:67 | the mock error decoder ignores trailing bytes |
| MockRuntime.DecodeIndex | crates/pop-drink/src/mock.rs:21-30 | bytes decode exactly when there are at least 2 and the first is a pallet with errors (0 to 4); the decoded error re-encodes to those 2 bytes |
| RuntimeErrors.ModuleBytes | crates/pop-drink/src/error.rs:45-47 | the module arm's bytes are 4 long: `MODULE_INDEX`, then the encoding, zero-padded or cut |
| RuntimeErrors.ModuleCode | crates/pop-drink/src/error.rs:44-52 | with `MODULE_INDEX` = 3, a module error's code never panics, and its 4 bytes are exactly `MODULE_INDEX` followed by the padded or cut encoding |
| RuntimeErrors.ModuleCodeAnyIndex | crates/pop-drink/src/error.rs:44-52 | for any `MODULE_INDEX`, the module arm succeeds iff the padded bytes decode; the code then carries the decoded prefix and zeros after it |
| RuntimeErrors.DecodeApi | crates/pop-drink/src/error.rs:48-50 | decoding succeeds iff the bytes start with a Pop API error's encoding, and otherwise panics with a decode failure |
| RuntimeErrors.IntoU32 | crates/pop-drink/src/error.rs:42-53 | a `Raw(e)` converts to `e`'s own code; a module error converts iff its padded bytes decode, and panics otherwise; the code's low byte is `MODULE_INDEX` for a module error and `e`'s tag for a raw one |
| RuntimeErrors.FromU32 | crates/pop-drink/src/error.rs:61-70 | a code converts to `Raw` of its Pop API error iff that error's encoding does not start with `MODULE_INDEX`; otherwise it converts to `Module` of the decoded rest of the encoding, or panics on a short encoding or a failed decode |
| RuntimeErrors.ModuleDecoderInput | crates/pop-drink/src/error.rs:65-67 | the module decoder receives the encoding without its first byte, and its result is the result of the conversion |
| RuntimeErrors.ModuleRoundTrip | crates/pop-drink/src/error.rs:42-70 | with `MODULE_INDEX` = 3 and a prefix decoder, a module error of at most 3 encoded bytes comes back unchanged from its code |
| RuntimeErrors.ModuleTruncation | crates/pop-drink/src/error.rs:45-47 | module errors whose encodings agree on the first 3 bytes have the same code: the rest is cut off |
| RuntimeErrors.RawRoundTrip | crates/pop-drink/src/error.rs:50-69 | a `Raw(e)` whose encoding does not start with `MODULE_INDEX` comes back as `Raw(e)` |
| RuntimeErrors.RawCollision | crates/pop-drink/src/error.rs:50-64 | a `Raw(e)` whose encoding starts with `MODULE_INDEX` never comes back as `Raw` |
| RuntimeErrorsV0.ModuleApiError | crates/pop-drink/src/errors/v0.rs:34-38 | the module arm panics iff the encoding is empty; otherwise it gives `Module` with `index` the first byte and `error` the next two, zero-padded |
| RuntimeErrorsV0.IntoU32 | crates/pop-drink/src/errors/v0.rs:32-43 | a `Raw(e)` converts to `e`'s own code; a module error converts iff its encoding is non-empty, to a code that converts back to the `Module` Pop API error built from it |
| RuntimeErrorsV0.FromU32 | crates/pop-drink/src/errors/v0.rs:54-63 | a code converts to `Raw` iff its Pop API error is not `Module`; a `Module { index, error }` converts to the module error decoded from `[index, error[0], error[1]]`, or panics when that does not decode |
| RuntimeErrorsV0.ModuleRoundTrip | crates/pop-drink/src/errors/v0.rs:32-63 | with a prefix decoder, a module error of 1 to 3 encoded bytes comes back unchanged from its code |
| RuntimeErrorsV0.RawRoundTrip | crates/pop-drink/src/errors/v0.rs:40-61 | a non-`Module` raw error comes back as itself; a raw `Module` error comes back as a module error, or the conversion panics |
| RuntimeErrorsV0.AgreesWithGeneric | crates/pop-drink/src/errors/v0.rs:34-38 | for non-empty encodings the v0 code equals the generic code with `MODULE_INDEX` = 3; for an empty encoding v0 panics while the generic conversion gives `Module { 0, [0, 0] }` |
| Errors.AssertRuntimeErr | crates/pop-drink/src/errors/mod.rs:13-45 | passes iff the result is `Err(e)` with `e`'s code equal to the expected error's code; a failure shows on the right the expected error converted from its own code, and on the left `Ok()` for an `Ok` result or the error converted from a different code (the copy at `crates/pop-drink/src/error.rs` lines 161-191 is the same) |
| Errors.PanicText | crates/pop-drink/src/errors/mod.rs:29-43 | the message is the header, then `Ok()` unquoted or the left error's text, then the separator and the expected error's text |
| Errors.FailureSides | crates/pop-drink/src/error.rs:172-190 | `Ok` fails with `Ok()` on the left and the expected error normalised through its code on the right; a different code fails with both codes decoded |
| Errors.CodesOnly | crates/pop-drink/src/errors/mod.rs:24-28 | the verdict depends only on the two codes and on whether the result is `Ok` |
| Macros.AssertMessage | crates/pop-drink/src/macros.rs:176-183 | the message is the header, the left text, the separator and the right text, in that order |
| Macros.DebugStr | crates/pop-drink/src/macros.rs:125 | `Debug` of a printable ASCII string literal without quotes or backslashes is that literal in quotes |
| Macros.MessageDeterminesSides | crates/pop-drink/src/macros.rs:176-183 | for left texts with no line break, equal messages have equal left and right texts |
| Macros.AssertErr | crates/pop-drink/src/macros.rs:112-127 | passes iff the result is `Err(e)` with `e`'s code equal to the expected code; an `Ok` result has left side `Ok()` |
| Macros.ErrText | crates/pop-drink/src/macros.rs:122-126 | the message is the header, then `"Ok()"` with quotes or the left error's text, then the separator and the expected error's text |
| Macros.OkLeftTexts | crates/pop-drink/src/macros.rs:125 | for `Ok`, `assert_err_inner` prints `"Ok()"` with quotes, while `errors::assert_runtime_err_inner` prints `Ok()`; the two messages differ |
| Macros.AssertLastEvent | crates/pop-drink/src/macros.rs:158-174 | passes iff the last event's bytes equal `encode(event)`; no event fails with `None` on the left; a failure always shows the expected event on the right; a panic is a decode failure of bytes that were present |
| Macros.LastEventVerdict | crates/pop-drink/src/macros.rs:168-171 | a mismatch shows the event decoded from the last bytes, or panics when they do not decode |
| Macros.EventText | crates/pop-drink/src/macros.rs:170-172 | the message is the header, then `"None"` with quotes or the decoded event's text, then the separator and the expected event's text |
| Macros.TrailingBytesLookEqual | crates/pop-drink/src/macros.rs:168-170 | an event's encoding followed by more bytes fails while both sides show the same event |
| ErrorVectors.MockModuleCode | crates/pop-drink/src/error.rs:221-236 | under both conversions every mock pallet error has the code of `Module { pallet index, [variant, 0] }` and comes back from it |
| ErrorVectors.MockModuleAssert | crates/pop-drink/src/error.rs:249-257 | under both conversions every mock pallet error passes the assertion against its Pop API counterpart |
| ErrorVectors.RawAssert | crates/pop-drink/src/error.rs:249-257 | a Pop API error whose encoding does not start with 3 passes both assertions against `Raw` of itself |
| ErrorVectors.TestCases | crates/pop-drink/src/error.rs:209-257 | each of the seven generic test cases has its counterpart's code and passes the assertion |
| ErrorVectors.TestCasesV0 | crates/pop-drink/src/errors/v0.rs:101-149 | each of the seven v0 test cases has its counterpart's code and passes the assertion |
| ErrorVectors.CollisionExample | crates/pop-drink/src/error.rs:50-67 | `Raw(Module { 1, [0, 0] })`'s code converts back as `Module(Assets(BalanceLow))` |
| ErrorVectors.RecodeNotStable | crates/pop-drink/src/error.rs:42-70 | `Raw(Module { 1, [0, 5] })`'s code converts back as `Module(Assets(BalanceLow))`, whose own code is different: a code need not survive a conversion back and forth |
| Storage.Apply | crates/ink-sandbox/src/macros.rs:79 | the visible storage holds a key iff the overlay sets it or, when the overlay does not mention it, the backend holds it |
| Storage.ApplyCompose | crates/ink-sandbox/src/macros.rs:30 | applying two layers of changes in turn is applying their union, the later layer winning |
| Storage.ApplySet | crates/ink-sandbox/src/macros.rs:40-42 | setting one pending key sets it in the visible storage |
| Externalities.Externalities.AsBackend | crates/ink-sandbox/src/macros.rs:79 | a pending write wins over the backend, a pending removal hides the key, every other key reads from the backend; with nothing pending the backend is what is visible |
| Externalities.Externalities.constructor | crates/ink-sandbox/src/macros.rs:28 | new externalities show their storage with nothing pending, no extensions and no hooks |
| Externalities.Externalities.Call | crates/ink-sandbox/src/macros.rs:39-50 | a hook call is appended to the log, and its writes go to the overlay |
| Externalities.Externalities.ExecuteWith | crates/ink-sandbox/src/macros.rs:73-75 | the closure sees the visible storage, its result is returned, and its writes stay pending on top |
| Externalities.Externalities.CommitAll | crates/ink-sandbox/src/macros.rs:83 | on success the backend becomes the visible storage and nothing stays pending; on failure it panics and changes nothing; the visible storage is the same either way |
| Externalities.Externalities.RegisterExtension | crates/ink-sandbox/src/macros.rs:90-92 | an extension replaces the one of the same type and nothing else changes |
| BlockBuilder.InitializeHooks | crates/ink-sandbox/src/macros.rs:39-50 | seven hooks, from `reset_events` and system `initialize` to `note_finished_initialize`; `set_timestamp` is the fourth, right after the balances `on_initialize`; the pallet hooks run in the order balances, timestamp, contracts; together they write the number, the parent hash and the moment |
| BlockBuilder.FinalizeHooks | crates/ink-sandbox/src/macros.rs:57-60 | four hooks ending in system `finalize`; the pallets close in the order contracts, timestamp, balances; they write nothing the model follows |
| BlockBuilder.UnixSeconds | drink/src/sandbox.rs:58-63 | the clock panics with "Time went backwards" iff it is before the epoch; otherwise it gives the whole seconds since then |
| BlockBuilder.PalletOrderMembers | crates/ink-sandbox/src/macros.rs:39-60 | a pallet is in a hook sequence's pallet order iff one of the hooks is that pallet's `on_initialize` or `on_finalize` |
| BlockBuilder.FinalizeReversesInitialize | crates/ink-sandbox/src/macros.rs:39-60 | pallets close in the reverse of the order they open in |
| BlockBuilder.InitializeVisible | crates/ink-sandbox/src/macros.rs:40-47 | opening a block sets the number, the parent hash and the moment in the visible storage |
| BlockBuilder.InitializeBlock | crates/ink-sandbox/src/macros.rs:35-51 | the seven hooks run in order, and the visible storage gains the number, the parent hash and the moment (the hooks writing nothing else, as under "Left out"); a clock before the epoch panics after the first three hooks (the same order in `ink-sandbox/src/macros.rs` and `drink/src/sandbox.rs`) |
| BlockBuilder.FinalizeBlock | crates/ink-sandbox/src/macros.rs:54-61 | contracts, timestamp and balances `on_finalize` run in that order, then system `finalize`; the result is the header hash of the visible storage, which stays unchanged because the hooks are taken to write nothing the model follows (see "Left out"; likewise in the two other copies) |
| BlockBuilder.Endow | crates/ink-sandbox/src/macros.rs:24-26 | every genesis account holds its balance, and every other key keeps its value |
| BlockBuilder.AssimilateBalances | crates/ink-sandbox/src/macros.rs:24-26 | genesis is accepted iff accounts are distinct and no balance is below the existential deposit; the total issuance is the sum of the balances |
| BlockBuilder.NewExt | crates/ink-sandbox/src/macros.rs:21-32 | the backend is system genesis plus the balances; block 1 is opened on the zero parent hash, with its number, parent hash and moment pending (the only hook writes the model follows); it panics iff genesis is rejected or the clock is before the epoch (likewise in the two other copies) |
| Sandbox.DefaultGenesis | crates/ink-sandbox/src/macros.rs:302-315 | the default genesis is the one pair (`[1; 32]`, 10^18) |
| Sandbox.DefaultGenesisAccepted | crates/ink-sandbox/src/macros.rs:302-315 | the default genesis is accepted: the default account and the total issuance are both `INIT_AMOUNT`, which fits in `u128` |
| Sandbox.DefaultActor | crates/ink-sandbox/src/macros.rs:107-109 | the default actor is the account of 32 bytes each 1 |
| Sandbox.SignerOfOrigin | crates/ink-sandbox/src/macros.rs:118 | `Option<AccountId>` into an origin loses nothing and never gives `Root` |
| Sandbox.ConvertAccountToOrigin | crates/ink-sandbox/src/macros.rs:115-119 | an account converts to the origin signed by that account |
| Sandbox.DefaultGasLimit | crates/ink-sandbox/src/lib.rs:96-98 | ref time 100_000_000_000, proof size 3_145_728 |
| Sandbox.DefaultInitializeBlock | crates/ink-sandbox/src/lib.rs:80-84 | the trait's default changes nothing |
| Sandbox.DefaultFinalizeBlock | crates/ink-sandbox/src/lib.rs:86-91 | the trait's default is the zero hash for every height |
| Sandbox.DryRunOutcome | crates/ink-sandbox/src/macros.rs:77-88 | after a commit the result is the action's result, the visible storage and the backend are those from before the call, nothing is pending, and the action's extensions and hooks remain; a failed commit panics and leaves the action's state |
| Sandbox.DryRunsCompose | crates/ink-sandbox/src/lib.rs:73-74 | a second dry run starts from the storage the first started from, and both leave it visible |
| Sandbox.Sandbox.DryRun | crates/ink-sandbox/src/macros.rs:77-88 | the sandbox's result and new state are `DryRunOutcome` of its old state; after a commit the visible storage is unchanged (the older copy in `ink-sandbox/src/macros.rs` is the same) |
| Sandbox.Sandbox.Default | crates/ink-sandbox/src/macros.rs:313-317 | the default sandbox gives the default account and the total issuance `INIT_AMOUNT` on top of the system genesis, with block 1 opened and its number, parent hash and moment visible; it panics iff the clock is before the epoch |
| Sandbox.Sandbox.ExecuteWith | crates/ink-sandbox/src/macros.rs:73-75 | the closure runs on the sandbox's externalities |
| Sandbox.Sandbox.RegisterExtension | crates/ink-sandbox/src/macros.rs:90-92 | the extension is registered and nothing else changes |
| Sandbox.Sandbox.InitializeBlock | crates/ink-sandbox/src/macros.rs:94-99 | the block builder's hook order and writes, inside the sandbox |
| Sandbox.Sandbox.FinalizeBlock | crates/ink-sandbox/src/macros.rs:101-105 | the block builder's hook order and hash, inside the sandbox |

## Left out

- SCALE encoding is given as a codec, an encode/decode pair. The model assumes `crate::utils::decode`, a pop-drink helper whose body this model does not reproduce, is a prefix decoder that panics on failure; `Scale.PrefixDecoding` is this assumption, and it is a precondition of the round-trip lemmas.
- `RuntimeErrors.Config`: the Pop API error type of `RuntimeErrorConfig` is fixed to the version-0 error, so the generic conversion is modelled only with that error type; results such as `RuntimeErrors.ModuleRoundTrip` with `MODULE_INDEX` = 3 depend on the version-0 layout.
- The pop primitives crate is not part of this model. `PopApiV0.Error` is reconstructed from its published layout: a SCALE enum with `Module` at index 3, `From<u32>` by decoding the little-endian bytes (falling back to `DecodingFailed`), and `Into<u32>` by encoding, zero-padding to four bytes and reading little-endian. Only the listed variants of `TokenError`, `ArithmeticError` and `TransactionalError` are modelled.
- `MockRuntime.RuntimeError` keeps each pallet's error as one variant byte and does not list the pallets' error names, except the four used by the tests. Its decoder therefore accepts every variant byte: `[1, 255]` decodes as `Assets(255)`, while the real decoder rejects a variant index the pallet does not define.
- The `VersionedApiError` type parameter of `assert_runtime_err_inner` has no value and no effect, so the model has no such parameter.
- The v0 `assert_runtime_err_inner` wrappers (in `errors/v0.rs` and `error.rs`) only delegate, so they are modelled by the generic assertion applied to the v0 conversions (`ErrorVectors.V0Conversions`).
- The `Debug` output of runtime errors is a parameter (`show`). Only printable ASCII string literals free of quotes and backslashes are formatted by the model.
- `assert_last_event_inner` reads the session's last contract event through `last_contract_event`, which is session glue; the event bytes are a parameter.
- `TestExternalities` internals are reduced to backend, overlay, extensions and a hook log. The pallets' hooks write nothing the model follows, except system `initialize` (block number and parent hash) and `set_timestamp` (the moment). The model leaves out the other storage effects of each hook: events, digest, weights and inherents.
- `Externalities.Externalities.CommitAll`: the failure of `commit_all` comes from code outside the model and is a parameter.
- The wall clock is a parameter, in nanoseconds since the epoch.
- `BlockBuilder.FinalizeBlock`: the header hash of `frame_system::finalize` is a parameter, a function of the visible storage, because state-root hashing is not modelled.
- `BlockBuilder.NewExt`: the system genesis storage is a parameter; `frame_system`'s genesis build is not modelled.
- `BlockBuilder.AssimilateBalances`: balances are unbounded, so a `u128` overflow of the total issuance is not modelled. The newer copy's `dev_accounts: None` adds nothing and is not modelled.
- `get_metadata` returns foreign runtime metadata and is left out.
- The three copies of `BlockBuilder` and of the sandbox implementation are modelled once. The `drink` copy of `new_ext` passes no `dev_accounts` field, which makes no difference here.
- `Sandbox.Sandbox.DryRun`: the action is a function of the sandbox's whole state. A panic inside the action is not modelled.
- `Sandbox.Sandbox.InitializeBlock` and `Sandbox.Sandbox.FinalizeBlock` run on the sandbox's externalities. In the source they are static and run on the ambient externalities inside `execute_with`.
- `RuntimeErrors.ModuleBytes`, `RuntimeErrorsV0.ModuleApiError`: the in-place `Vec::insert` and `Vec::resize` on a local vector are modelled as sequence values.
- Out of scope:
  - the pallet API wrappers (assets, nfts);
  - the session helpers (`deploy`, `call`);
  - the runtime-building macros;
  - re-exports;
  - the command-line interface.
