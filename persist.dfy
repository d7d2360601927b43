/** What the persist middleware does while the store is being built
    (src/core/middleware/persist.ts:15-24): it constructs its `Storage` and
    reads the stored state at once; only the hydrating `set` waits until
    after the store exists. How it wraps `set` is in module Layers. */
module Persist {
  import opened Results
  import opened Values
  import opened Errors
  import opened BrowserStorage

  /** The options record (src/types/index.ts:44-47); a missing storage type
      is None. */
  datatype PersistOptions = PersistOptions(key: string, storageType: Option<string>)

  /** What the deferred hydration will apply: the value read, when the read
      succeeded and the value is truthy (`if (storedState)`). */
  function PendingOf(read: Result<Value, ChuBeiError>): (p: Option<Value>)
    ensures p.Some? <==> read.Ok? && Truthy(read.value)
    ensures p.Some? ==> p.value == read.value
  {
    if read.Ok? && Truthy(read.value) then Some(read.value) else None
  }

  /** Nothing that was never written, or that was removed, is hydrated. */
  lemma NothingStoredNothingPending(t: StorageType, key: string, json: Json, entries: Entries, failing: set<StorageType>)
    requires (t, key) !in entries
    ensures PendingOf(GetResult(t, key, json, entries, failing)).None?
  {
  }

  /** A state object persisted through a working backend is what the next
      store built over the same key hydrates from. */
  lemma PersistedIsPending(t: StorageType, key: string, m: State, json: Json, entries: Entries, failing: set<StorageType>)
    requires t !in failing && RoundTrips(json, Obj(m))
    ensures PendingOf(GetResult(t, key, json, SetEffect(t, key, Obj(m), json, entries, failing).entries, failing)) == Some(Obj(m))
  {
    SetThenGet(t, key, Obj(m), json, entries, failing);
  }

  /** The synchronous start of the async block: `new Storage` (a throw,
      including a missing options record, leaves `storage` undefined) and
      `storage.get()` (a throw leaves nothing to hydrate). Neither error
      reaches the caller: it becomes an unobserved rejected promise. */
  method Open(options: Option<PersistOptions>, backends: Backends, json: Json)
    returns (storage: Option<Storage>, pending: Option<Value>)
    ensures storage.Some? <==> options.Some? && CheckStorageType(options.value.storageType).Ok?
    ensures storage.Some? ==> (fresh(storage.value) && storage.value.backends == backends
      && storage.value.key == options.value.key
      && storage.value.storageType == CheckStorageType(options.value.storageType).value)
    ensures pending == if storage.None? then None
      else PendingOf(GetResult(storage.value.storageType, storage.value.key, json, backends.entries, backends.failing))
  {
    storage, pending := None, None;
    if options.Some? {
      var created := Storage.Create(options.value.key, options.value.storageType, backends);
      if created.Ok? {
        storage := Some(created.value);
        var read := created.value.Get(json);
        pending := PendingOf(read);
      }
    }
  }
}
