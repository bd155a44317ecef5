/** `TestExternalities`, the state a sandbox owns: committed backend, pending overlay and
    registered extensions. The model adds a log of the runtime hooks called in it, so that what a
    block hook does can be stated without modelling the pallets. */
module Externalities {
  import opened Base
  import opened Storage

  /** The runtime entry points `BlockBuilder` calls. */
  datatype Hook =
    | ResetEvents                                  // frame_system::reset_events
    | SystemInitialize(height: nat, parentHash: Hash) // frame_system::initialize
    | BalancesOnInitialize(height: nat)
    | SetTimestamp(moment: nat)                    // pallet_timestamp::set_timestamp
    | TimestampOnInitialize(height: nat)
    | ContractsOnInitialize(height: nat)
    | NoteFinishedInitialize                       // frame_system::note_finished_initialize
    | ContractsOnFinalize(height: nat)
    | TimestampOnFinalize(height: nat)
    | BalancesOnFinalize(height: nat)
    | SystemFinalize                               // frame_system::finalize

  /** The storage writes of a hook that this model follows: `initialize` records the block number
      and parent hash, `set_timestamp` the moment. */
  function HookWrites(h: Hook): Overlay {
    match h
    case SystemInitialize(height, parent) => map[Number := Some(height), ParentHash := Some(parent)]
    case SetTimestamp(moment) => map[Now := Some(moment)]
    case _ => map[]
  }

  /** A registered extension, identified by its type. */
  datatype Extension = Extension(typeName: string, payload: seq<byte>)

  /** What a closure run inside the externalities does: the changes it writes, the hooks it calls
      and the value it returns. */
  datatype Effect<T> = Effect(writes: Overlay, calls: seq<Hook>, result: T)

  /** The whole state of the externalities as a value. */
  datatype State = State(
    backend: Store, overlay: Overlay, extensions: map<string, Extension>, hooks: seq<Hook>)

  /** The storage a state makes visible: its pending changes on top of its backend. */
  function Visible(s: State): Store {
    Apply(s.backend, s.overlay)
  }

  class Externalities {
    var backend: Store
    var overlay: Overlay
    var extensions: map<string, Extension>
    var hooks: seq<Hook>

    /** `TestExternalities::new(storage)`. */
    constructor (storage: Store)
      ensures backend == storage && overlay == map[] && extensions == map[] && hooks == []
      ensures AsBackend() == storage
    {
      backend, overlay, extensions, hooks := storage, map[], map[], [];
      ApplyEmpty(storage);
    }

    /** `as_backend`: what reads inside the externalities see. A pending write wins over the
        backend, a pending removal hides the key, and every other key reads from the backend. */
    function AsBackend(): (r: Store)
      reads this
      ensures forall k :: k in overlay && overlay[k].Some? ==> k in r && r[k] == overlay[k].value
      ensures forall k :: k in overlay && overlay[k].None? ==> k !in r
      ensures forall k :: k !in overlay ==> (k in r <==> k in backend)
      ensures forall k :: k !in overlay && k in backend ==> r[k] == backend[k]
      ensures overlay == map[] ==> r == backend
    {
      ApplyEmpty(backend);
      Visible(Snapshot())
    }

    function Snapshot(): State
      reads this
    {
      State(backend, overlay, extensions, hooks)
    }

    /** Overwrite every part of the state (what an arbitrary action on the sandbox can do). */
    method Load(s: State)
      modifies this
      ensures Snapshot() == s
    {
      backend, overlay, extensions, hooks := s.backend, s.overlay, s.extensions, s.hooks;
    }

    /** Call a runtime hook inside these externalities: its writes go to the overlay. */
    method Call(h: Hook)
      modifies this
      ensures hooks == old(hooks) + [h]
      ensures overlay == old(overlay) + HookWrites(h)
      ensures HookWrites(h) == map[] ==> overlay == old(overlay)
      ensures backend == old(backend) && extensions == old(extensions)
    {
      hooks := hooks + [h];
      overlay := overlay + HookWrites(h);
      assert HookWrites(h) == map[] ==> overlay == old(overlay);
    }

    /** `execute_with`: run a closure against the visible storage; its changes stay pending. */
    method ExecuteWith<T>(execute: Store -> Effect<T>) returns (r: T)
      modifies this
      ensures var e := execute(old(AsBackend()));
        r == e.result && overlay == old(overlay) + e.writes && hooks == old(hooks) + e.calls &&
        AsBackend() == Apply(old(AsBackend()), e.writes)
      ensures backend == old(backend) && extensions == old(extensions)
    {
      var e := execute(AsBackend());
      overlay := overlay + e.writes;
      hooks := hooks + e.calls;
      ApplyCompose(backend, old(overlay), e.writes);
      r := e.result;
    }

    /** `commit_all`: move the pending changes into the backend. Whether it succeeds is decided
        by code outside this model and given as `succeeds`. */
    method CommitAll(succeeds: bool) returns (r: Run<()>)
      modifies this
      ensures succeeds ==> r == Done(()) && backend == old(AsBackend()) && overlay == map[]
      ensures !succeeds ==> r == Panic(CommitFailed) && backend == old(backend) && overlay == old(overlay)
      ensures AsBackend() == old(AsBackend())
      ensures extensions == old(extensions) && hooks == old(hooks)
    {
      if !succeeds {
        return Panic(CommitFailed);
      }
      backend := AsBackend();
      overlay := map[];
      ApplyEmpty(backend);
      r := Done(());
    }

    /** `register_extension`: a second extension of the same type replaces the first. */
    method RegisterExtension(e: Extension)
      modifies this
      ensures extensions == old(extensions)[e.typeName := e]
      ensures backend == old(backend) && overlay == old(overlay) && hooks == old(hooks)
    {
      extensions := extensions[e.typeName := e];
    }
  }
}
