# chubei in Dafny

This project models chubei, a small observable state container for JavaScript
and React, and proves properties of the model. It covers:

- **The container**: a `Store` with one state record and a registration-ordered
  set of listeners. `setState` shallow-merges a partial update, always replaces
  the state, and then calls every listener once.
- **The two factories**:
  - `createStore` builds `set`/`get` over a `Store`, after an arity check on the
    creator.
  - React's `create` keeps its state and a listener array in closure variables.
- **The middleware that wraps `set`**:
  - `devtools`: option defaults, a pass-through when disabled, and a bounded
    first-in-first-out trace history.
  - `persist`: a storage write after every update, plus a one-shot hydration
    from storage.
  - `logger`: one log call after every update.
- **Selector subscriptions**: `subscribeToStore`, `useStore` and `useSelector`.
- **The `Storage` wrapper**: storage-type validation, dispatch to one of three
  backends, and error wrapping.
- **`ChuBeiError`**: its fields and its `toString` format.

## Modules

| file | module | what it holds |
|---|---|---|
| results.dfy | `Results` | `Option`, `Result` and `Outcome` (a call that returns normally or throws) |
| values.dfy | `Values` | the `Value` datatype, states as `map<string, Value>`, the shallow merge `{ ...s, ...p }`, updates (literal or functional), and JSON as an uninterpreted codec |
| errors.dfy | `Errors` | the twelve error codes, the `ChuBeiError` record, `toString`, and what a caller sees thrown |
| seqs.dfy | `Seqs` | distinctness, occurrence counts and element removal on sequences |
| store.dfy | `StoreCore` | listener closures as objects, the `Store` class, notification as a loop, and the event trace it produces |
| subscription.dfy | `Subscription` | the change-suppressing subscription listener and what its `onChange` receives |
| hooks.dfy | `Hooks` | `useStore` and `useSelector` |
| storage.dfy | `BrowserStorage` | the three backends as one map from (kind, key) to string, the `Storage` class |
| devtools.dfy | `Devtools` | option defaults, trace entries, the bounded history |
| persist.dfy | `Persist` | the synchronous start of persist's set-up: opening the storage and reading what to hydrate |
| logger.dfy | `Logger` | one log call as an event |
| layers.dfy | `Layers` | the semantics of one update through a chain of layers, and its properties |
| creators.dfy | `Creators` | creators and middleware as a datatype, and what calling the chain does |
| vanilla.dfy | `Vanilla` | the vanilla factory and its `set`, run through the layers against a real `Store` and real backends |
| react.dfy | `React` | React's closure store |

### How the source is read

- **Layer order.** Middleware nest syntactically: `devtools(persist(creator))`.
  The model lists layers in the order an update passes them. The first layer
  is the `set` the creator's actions call, which is the innermost middleware.
  The last layer hands its update to the vanilla `set`.
  - No layer changes the store before it calls inward; only the vanilla
    `set` does. So every layer that reads `get()` sees the same store state.
    A disabled devtools reads nothing: it hands the update on untouched
    (src/core/middleware/devtools.ts:40-42) before its `get()` at line 44.
  - Each layer's work after the inner `set` returns (persist's write, the
    logger's log) runs from the last layer back to the first.
  - An exception thrown by an inner layer skips the work of every layer before
    it.
- **The `resolvedState` field.** The vanilla `set` first writes
  `{ ...store.state, resolvedState }` (src/vanilla.ts:30). That shorthand
  property adds a literal field named `resolvedState` holding the partial.
  Only then does it merge the partial (src/vanilla.ts:31). The model keeps
  this field.
  - The creator's initial state (src/vanilla.ts:37) has no such field. After
    the first `set` the store state carries it.
  - Without persist or an enabled devtools in the chain, the field holds the
    latest resolved partial when that partial has no `resolvedState` field of
    its own (`Layers.ResolvedStateTracks`).
  - A persist layer or an enabled devtools passes the whole previous state
    inward, and that state already holds the field. From the second update
    on, the field therefore keeps its old value, unless the update itself
    sets a field of that name (`Layers.ResolvedStateFrozen`).
  - `Layers.DataFieldsAgree` proves that every other field is the plain merge.
- **Error argument order.** `ChuBeiError` takes `(message, code, metadata)`
  (src/utils/error.ts:5). Three call sites pass the code first and the prose
  second: src/vanilla.ts:17-20, src/react.ts:9-12 and
  src/core/middleware/devtools.ts:22-25. The model keeps this, so the thrown
  error's `message` is `"STORE_CREATOR_REQUIRED"` and its `code` is the
  sentence.
- **`OPTIONS_REQUIRED` is never raised.** `devtools` destructures its options
  (src/core/middleware/devtools.ts:17-18) before it checks them for null
  (line 21). Missing options therefore fail with a TypeError at that
  destructuring.
- **Persist's set-up.** `new Storage` and `storage.get()` run synchronously
  when the chain is called (src/core/middleware/persist.ts:18-20). Neither
  error reaches the caller; each becomes an unobserved rejected promise.
  - If the constructor failed, `storage` stays undefined, and every later write
    is skipped (`storage?.set`, line 34).
  - The `set(storedState)` of the hydration runs only after the creator has
    returned, so the model makes it an explicit later step:
    `Vanilla.Pipeline.Hydrate`. It passes the stored value to the `set` that
    persist wraps, once. It does not write back to storage.
- **The logger** hands the resolved partial inward, then logs
  `{ ...get(), ...resolved }`. A logger built without options throws a
  TypeError at its first log, after the inner `set` has already run.
- **Storage.** Local storage, session storage and cookies are one map from
  (backend kind, key) to the stored string. Each kind can be marked failing,
  in which case every access to it throws. An empty or missing entry reads as
  `null`. JSON is a record of three uninterpreted functions (`Values.Json`):
  `stringify`, `pretty` (`JSON.stringify(v, null, 2)`) and `parse`. The
  round-trip lemmas assume only that `parse` reads back what `stringify` wrote
  for the value in question (`Values.RoundTrips`).
- **The devtools test of the disabled path** (tests/core/middleware/devtools.test.ts:93-103)
  calls `store.setState` directly, bypassing the middleware. The disabled
  path is modelled from the middleware's code.

## Model

| member | source | states |
|---|---|---|
| Values.Merge | src/core/store.ts:16 | the merged state has the fields of both; a field of the partial replaces the state's field; every other field is kept; spreading a primitive adds nothing |
| Values.MergeIdempotent | src/core/store.ts:15-17 | merging the same partial twice is merging it once |
| Values.MergeOfSuperset | src/core/store.ts:16 | merging an object that holds every field of the state into that state gives exactly that object (what the vanilla `set` then adds is `Layers.Settle`) |
| Values.Resolve | src/vanilla.ts:27-28 | a literal update resolves to itself; a functional one is applied to the state it is resolved against (the same expression is at src/core/middleware/devtools.ts:45-46, persist.ts:29-30 and logger.ts:45-46) |
| Values.ResolveResolved | src/core/middleware/logger.ts:45-48 | a partial resolved once and passed on as a literal resolves to itself, against any state |
| Errors.CodeStringInjective | src/types/index.ts:4-17 | distinct error codes have distinct strings |
| Errors.NewChuBeiError | src/utils/error.ts:5-9 | the name is `"ChuBeiError"` and message, code and metadata are kept exactly as given |
| Errors.ToString | src/utils/error.ts:17-23 | the string starts with `name [code]: message` and is exactly that header if and only if there is no metadata; with metadata, what follows the header is `"\nMetadata: "` and the two-space-indented JSON of the metadata |
| Errors.ToStringReadsBack | src/utils/error.ts:18 | without metadata, and for a code with no `]`, the code and the message can be read back out of `toString()` |
| Errors.StoreCreatorRequiredError | src/vanilla.ts:17-20 | the factories' error is named `"ChuBeiError"`, has the code string `"STORE_CREATOR_REQUIRED"` as its message and the prose sentence as its code, and has no metadata |
| Seqs.Without | src/react.ts:37 | removal keeps only, and every one of, the elements different from the removed one |
| Seqs.WithoutIdempotent | src/core/store.ts:23 | deleting a listener a second time changes nothing |
| Seqs.WithoutDistinct | src/core/store.ts:23 | deleting from a set of listeners leaves a set |
| Seqs.AppendDistinct | src/core/store.ts:22 | adding a listener not yet present keeps the listeners a set |
| Seqs.CountWithout | src/react.ts:37 | after a filter, the removed element occurs nowhere and every other element occurs as often as before |
| StoreCore.Listener.Invoke | src/utils/subscription.ts:10-16 | a closure call reassigns its captured variable and makes the calls its code makes |
| StoreCore.Store.constructor | src/core/store.ts:5-9 | a new store holds the initial state and no listeners |
| StoreCore.Store.GetState | src/core/store.ts:11-13 | returns the current state |
| StoreCore.Store.SetState | src/core/store.ts:15-19 | the state becomes the merge of the old state and the partial, with no equality short-circuit; the listeners stay registered; the events are one notification of every listener with the new state |
| StoreCore.Store.Subscribe | src/core/store.ts:21-24 | a listener is added at the end unless already present, which leaves one registration; the handle deletes that listener |
| StoreCore.Store.Delete | src/core/store.ts:23 | removes only that listener and reports whether it was present |
| StoreCore.Unsubscribe | src/core/store.ts:23 | calling a handle deletes its listener from its store and nothing else |
| StoreCore.Recapture | src/utils/subscription.ts:11-13 | after a closure call, a subscription's or a selector hook's captured variable is the slice of the new state, whether or not it changed; an outside callback captures nothing |
| StoreCore.Reaction | src/utils/subscription.ts:11-15 | a closure call makes at most one call, an `onChange` with the new slice, exactly when the closure is a subscription whose slice changed |
| StoreCore.Broadcast | src/core/store.ts:27 | a notification of any listeners begins with the call of the first registered one |
| StoreCore.BroadcastLength | src/core/store.ts:27 | a notification makes each listener's call and at most one more call per listener |
| StoreCore.Store.NotifyAt | src/core/store.ts:27 | calling the next listener extends the trace by its call and its reactions, and changes only that listener's captured variable |
| StoreCore.Store.NotifyListeners | src/core/store.ts:26-28 | the loop produces the whole notification trace, and every listener has reacted to the current state |
| StoreCore.CalledInOrder | src/core/store.ts:26-28 | one notification calls the registered listeners exactly in registration order |
| StoreCore.CalledWithNewState | src/core/store.ts:17-18 | every listener called is handed the state already stored |
| StoreCore.CalledExactlyOnce | src/core/store.ts:26-28 | each registered listener is called exactly once per notification |
| Subscription.BlockFired | src/utils/subscription.ts:10-16 | notifying one subscription listener calls its `onChange` with the new slice when the slice differs from the baseline, and calls nothing otherwise |
| Subscription.SilentWithoutSubscriber | src/utils/subscription.ts:14 | a callback that no registered subscription holds is never called |
| Subscription.FiresIffChanged | src/utils/subscription.ts:11-15 | in a notification of any listeners, a subscription's `onChange` is called if and only if its new slice differs from its baseline, at most once, whatever other subscriptions do |
| Subscription.BaselineIsLatestSlice | src/utils/subscription.ts:12-13 | a corollary of `StoreCore.Recapture`, for a subscription: after a notification the baseline is the new slice, whether or not it fired |
| Subscription.SilentAfterUnsubscribe | src/utils/subscription.ts:18 | once the handle has removed its listener, no later notification calls that `onChange` |
| Subscription.EmittedNeverRepeats | src/utils/subscription.ts:12-14 | over any run of states, the first slice handed over differs from the baseline and no two consecutive ones are equal |
| Subscription.EmittedUnfolds | src/utils/subscription.ts:10-16 | over states `[s] + rest`, `Emitted` is exactly what one notification of `s` hands the subscription's `onChange`, followed by what the later states emit from the recaptured baseline |
| Subscription.SubscribeToStore | src/utils/subscription.ts:3-19 | the baseline is the slice of the current state; exactly one new listener is added; the store's own handle for it is returned |
| Hooks.UseStore | src/hooks/useStore.ts:4-10 | does exactly what `subscribeToStore` does and returns its handle |
| Hooks.UseSelector | src/hooks/useSelector.ts:3-14 | returns the slice of the current state and leaves exactly one more listener registered, with no handle to remove it |
| Hooks.RebindFollowsState | src/hooks/useSelector.ts:9-11 | a corollary of `StoreCore.Recapture` and `StoreCore.Reaction`, for the hook's listener: it rebinds its local copy to each new slice and calls nothing |
| BrowserStorage.ParseStorageType | src/utils/storage.ts:9 | a name is accepted if and only if it is one of the three supported names, and it selects the backend of that name |
| BrowserStorage.CheckStorageType | src/utils/storage.ts:8-15 | a missing type is local storage; any other unsupported name is rejected with UNSUPPORTED_STORAGE_TYPE and metadata `{storageType}` |
| BrowserStorage.SetEffect | src/utils/storage.ts:21-49 | a working backend stores the JSON under the key; a failing one raises SET_STATE_ERROR with metadata `{state, storageType}` and changes nothing; no other entry changes |
| BrowserStorage.GetResult | src/utils/storage.ts:51-74 | returns the parsed entry, or `null` for an empty or missing one; raises GET_STATE_ERROR with metadata `{storageType}` if and only if the backend fails or the entry does not parse |
| BrowserStorage.ValidateResult | src/utils/storage.ts:76-99 | true if and only if the backend works and the entry is non-empty and parses to something other than `null`; VALIDATE_STATE_ERROR with metadata `{storageType}` exactly when reading fails |
| BrowserStorage.RemoveEffect | src/utils/storage.ts:101-127 | a working backend drops the key; a failing one raises REMOVE_STATE_ERROR with metadata `{storageType}` and changes nothing; no other entry changes |
| BrowserStorage.Stored | src/utils/storage.ts:129-144 | a missing key and an empty entry read as `null`; an entry holding the JSON of a value reads back as that value |
| BrowserStorage.SetThenGet | src/utils/storage.ts:21-59 | a value written and read back through a working backend is the value |
| BrowserStorage.SetThenValidate | src/utils/storage.ts:76-84 | after writing anything but `null`, `validate()` is true |
| BrowserStorage.RemoveThenValidate | src/utils/storage.ts:101-112 | after a removal, `validate()` is false and `get()` is `null` |
| BrowserStorage.WritesAreIsolated | src/utils/storage.ts:25-34 | a write under one key of one backend is invisible under every other key and backend |
| BrowserStorage.Storage.Create | src/utils/storage.ts:8-19 | a storage is built if and only if the type is supported, with the key and the selected backend; otherwise the type error is raised |
| BrowserStorage.Storage.Set | src/utils/storage.ts:21-49 | the backends change exactly as `SetEffect` says |
| BrowserStorage.Storage.Get | src/utils/storage.ts:51-74 | returns what `GetResult` gives for the current entries |
| BrowserStorage.Storage.Validate | src/utils/storage.ts:76-99 | returns what `ValidateResult` gives for the current entries |
| BrowserStorage.Storage.Remove | src/utils/storage.ts:101-127 | the backends change exactly as `RemoveEffect` says |
| Devtools.OrString | src/core/middleware/devtools.ts:29-30 | the or-default keeps a non-empty string and replaces a missing or empty one |
| Devtools.OrBool | src/core/middleware/devtools.ts:31-33 | a flag given is kept, a missing one takes the default |
| Devtools.Defaults | src/core/middleware/devtools.ts:28-34 | every field of the configuration, in both the given and the defaulted case, including the or-default on the empty name, the empty action type and a zero trace limit |
| Devtools.EmptyOptionsDefaults | src/core/middleware/devtools.ts:29-34 | empty options give `"zustandStore"`, `"STATE_UPDATE"`, serialize on, enabled, no trace, limit 10 |
| Devtools.Entry | src/core/middleware/devtools.ts:50-60 | an entry is `"Action: " + action type + " - State: "` followed by the state as logged |
| Devtools.StateToLog | src/core/middleware/devtools.ts:50-52 | with serialization on, the logged text parses back to the merged state; with it off, the state shows as `"[object Object]"` |
| Devtools.EntryDeterminesState | src/core/middleware/devtools.ts:50-60 | with serialization on, two entries are equal only for equal merged states |
| Devtools.Capacity | src/core/middleware/devtools.ts:57-60 | a history holds at least the entry just pushed, and at most the limit when the limit is positive |
| Devtools.Record | src/core/middleware/devtools.ts:57-60 | the new entry is pushed last; at most the oldest entry is shifted out, only when the history has reached the limit; the capacity is never exceeded |
| Devtools.RecordWindow | src/core/middleware/devtools.ts:57-60 | one traced update keeps the latest entries up to the limit |
| Devtools.RecentWindow | src/core/middleware/devtools.ts:57-60 | for a limit of at least one, after any run of traced updates the history is the latest entries in call order, the oldest evicted first |
| Devtools.HistoryBounded | src/core/middleware/devtools.ts:57-60 | the history never exceeds the limit, and is full once that many updates were traced |
| Devtools.NegativeLimitKeepsLatest | src/core/middleware/devtools.ts:57-60 | a negative limit keeps only the latest entry |
| Persist.PendingOf | src/core/middleware/persist.ts:20-21 | the hydration applies the value read if and only if the read succeeded and the value is truthy |
| Persist.NothingStoredNothingPending | src/core/middleware/persist.ts:20-23 | a key never written, or removed, hydrates nothing |
| Persist.PersistedIsPending | src/core/middleware/persist.ts:18-34 | a state object written by persist through a working backend is what the next store over that key hydrates |
| Persist.Open | src/core/middleware/persist.ts:15-24 | a storage exists if and only if options were given with a supported type; what is pending is the truthy value read from it, and nothing otherwise |
| Logger.Log | src/core/middleware/logger.ts:14-40 | logging throws a TypeError if and only if the logger has no options; otherwise the event shows the given state and which console features the options switch on |
| Layers.MergedWith | src/core/middleware/devtools.ts:47 | `{ ...currentState, ...resolvedState }` (also src/core/middleware/persist.ts:32) has exactly the state's fields and the update's; merging it into the same state again gives it back, so handing it inward loses nothing |
| Layers.Settle | src/vanilla.ts:30-31 | every field but `resolvedState` is the plain merge; `resolvedState` is always present; it holds the partial when the partial has no field of that name, and the partial's own field otherwise |
| Layers.Inward | src/core/middleware/devtools.ts:40-47 | what a layer passes inward merges into the state exactly as the update it received; only a disabled devtools passes a function on, and then the update itself |
| Layers.Reaching | src/core/middleware/devtools.ts:69 | an update reaches the vanilla `set` still a function only if every layer is a disabled devtools, and then it is the caller's own update |
| Layers.Final | src/vanilla.ts:30-31 | after an update through any chain the state has exactly the fields of the merge plus `resolvedState` |
| Layers.TracedAll | src/core/middleware/devtools.ts:55-60 | an update changes no layer's kind or configuration, only devtools histories |
| Layers.Post | src/core/middleware/persist.ts:34 | after the inner `set` returns, an earlier failure leaves everything as it was; a layer adds at most one log event and keeps the earlier ones; only persist writes |
| Layers.Unwind | src/core/middleware/logger.ts:48-49 | unwinding a chain keeps the earlier log events and adds at most one per layer |
| Layers.Traced | src/core/middleware/devtools.ts:55-60 | only an enabled, tracing devtools records an entry (of the merged state), and the configuration never changes |
| Layers.MergeAbsorbs | src/core/middleware/persist.ts:32-33 | passing the merged state inward and merging it again gives the merged state |
| Layers.ReachingAgrees | src/core/middleware/devtools.ts:44-47 | whatever each layer passes inward, the update that reaches the vanilla `set` merges into the state exactly as the original one |
| Layers.DataFieldsAgree | src/vanilla.ts:30-31 | after an update through any chain, every field but `resolvedState` is the plain merge of the update into the state, and `resolvedState` is present |
| Layers.ReachingDependsOnResolved | src/core/middleware/logger.ts:45-48 | what reaches the vanilla `set` depends only on what the update resolves to |
| Layers.LoggerTransparent | src/core/middleware/logger.ts:42-50 | a logger inserted anywhere in a chain leaves every resulting state exactly as without it |
| Layers.DisabledDevtoolsTransparent | src/core/middleware/devtools.ts:40-42 | a disabled devtools inserted anywhere in a chain leaves the resulting state unchanged and records nothing |
| Layers.TracedAt | src/core/middleware/devtools.ts:39-60 | the layer at each position traces the update that the layers before it passed on |
| Layers.TraceShowsFinalState | src/core/middleware/devtools.ts:47-60 | every traced state has the data fields the store ends with |
| Layers.ResolvedStateCarried | src/core/middleware/persist.ts:32-33 | a partial carrying a `resolvedState` field carries the same value past every later layer |
| Layers.ResolvedStateFrozen | src/core/middleware/persist.ts:32-33 | behind a persist layer or an enabled devtools, once the store holds `resolvedState`, an update that does not set that field leaves it as it was |
| Layers.ResolvedStateTracks | src/vanilla.ts:27-31 | through layers none of which passes the merged state inward, the vanilla `set` sees the caller's resolved partial, and `resolvedState` then holds it when the partial has no `resolvedState` field of its own |
| Layers.PersistWritesMerged | src/core/middleware/persist.ts:27-34 | a persist layer anywhere in a chain passes inward, and writes, the merge of the original update into the state |
| Layers.NoStorageNoWrite | src/core/middleware/persist.ts:34 | a chain whose persist layers have no storage writes nothing |
| Layers.FailureStopsUnwinding | src/core/middleware/persist.ts:33-34 | once an inner `set` has thrown, no layer further out writes or logs |
| Creators.Accepted | src/vanilla.ts:16 | every middleware-wrapped creator passes the arity check; a plain creator passes it exactly when it takes two parameters; a non-function never does |
| Creators.Plan | src/core/middleware/devtools.ts:15-39 | calling the chain throws only TypeErrors; an innermost non-function fails; on success there is one layer per middleware, the state is the innermost creator's, and the outermost middleware, whether devtools, persist or logger, is the last layer |
| Creators.MissingDevtoolsOptionsThrow | src/core/middleware/devtools.ts:17-26 | a devtools without options anywhere in the chain throws a TypeError, never OPTIONS_REQUIRED |
| Creators.PlanSucceedsIff | src/vanilla.ts:37 | calling the chain succeeds if and only if the innermost creator is a function and every devtools has options |
| Vanilla.Pipeline.Get | src/vanilla.ts:34 | returns the store's current state |
| Vanilla.Pipeline.VanillaSet | src/vanilla.ts:24-32 | resolves the update against the store state, writes `resolvedState`, then merges through the store, notifying every listener once |
| Vanilla.Pipeline.SetFrom | src/core/middleware/devtools.ts:39-70 | the `set` of any layer: the store ends at the chain's final state; every layer from it on has traced; one notification; the backends and log events are those of unwinding the chain |
| Vanilla.Pipeline.Wrapped | src/core/middleware/logger.ts:42-50 | a layer's `set` is its work before, the inner `set`, then its work after, with the same overall effect as the chain from that layer |
| Vanilla.Pipeline.Descend | src/core/middleware/devtools.ts:44-69 | a layer records its trace entry before calling inward with what it passes on |
| Vanilla.Pipeline.Trace | src/core/middleware/devtools.ts:55-60 | only that layer's history changes, as `Traced` says |
| Vanilla.Pipeline.After | src/core/middleware/persist.ts:33-34 | after the inner `set`, persist writes the merged state and the logger logs; a failure propagates; an earlier failure skips both |
| Vanilla.Pipeline.Set | src/vanilla.ts:24-32 | the `set` a creator's actions call runs the whole chain, and every listener has reacted to the new state |
| Vanilla.Pipeline.Hydrate | src/core/middleware/persist.ts:18-24 | with nothing pending nothing happens and every listener keeps its captured variable; otherwise the pending value passes once through the layers inside that persist layer, which itself writes nothing, and every listener has reacted to the new state |
| Vanilla.CreateStore | src/vanilla.ts:11-40 | a creator that is not a two-parameter function raises the creator error and builds nothing; errors of the chain propagate; otherwise the store holds the creator's state and no listeners, with one layer per middleware |
| React.SpreadUpdate | src/react.ts:19 | a literal partial merges into the state; a functional update changes nothing |
| React.NoResolvedStateField | src/react.ts:18-21 | React's store adds no `resolvedState` field |
| React.ClosureStore.constructor | src/react.ts:15-16 | a new closure store holds the given state and an empty listener array |
| React.ClosureStore.SetState | src/react.ts:18-21 | the state becomes the spread merge, and every entry of the listener array is called once, in array order |
| React.ClosureStore.GetState | src/react.ts:23 | returns the closure state |
| React.ClosureStore.AddListener | src/react.ts:34 | pushes the listener at the end, even if it is already present |
| React.ClosureStore.RemoveListener | src/react.ts:37 | removes every occurrence of the listener and keeps every other entry |
| React.MountedCalledOnce | src/react.ts:33-34 | a newly built listener pushed on mount is called exactly once by every `setState` |
| React.MountThenUnmount | src/react.ts:33-37 | unmounting removes what mounting pushed and leaves the array as it was before the mount |
| React.RemovalRemovesAll | src/react.ts:37 | removal leaves no occurrence of the listener and as many of every other listener |
| React.Create | src/react.ts:5-26 | the same arity gate and error as the vanilla factory; otherwise the closure state is the creator's state and there are no listeners |

## Left out

- Console output of the logger and devtools: groups, colours, timers and `Date` timestamps are I/O. A log call is one `Logger.LogEvent`, and a devtools console group is not represented.
- JSON. `stringify` and `parse` are parameters (`Values.Json`) about which only `Values.RoundTrips` is assumed where a lemma needs it. `JSON.stringify` throwing (circular or BigInt values) is not modelled: `stringify` is total.
- The cookie backend's string building, its one-hour expiry and the regular expression over `document.cookie` are browser I/O. Cookies are a third kind in the entry map, so a key containing regex metacharacters, or a value containing `;`, is not modelled.
- The React hook body (src/react.ts:29-46): `useState`/`useEffect` re-rendering is UI. Only the listener push (line 34) and filter (line 37) are kept. A component listener is identified by a number.
- Promise and microtask semantics of persist's async block. The synchronous part of the block is `Persist.Open`. The deferred `set` is `Vanilla.Pipeline.Hydrate`, to be called after the store exists.
- `Error.captureStackTrace` and stack traces.
- Closures stored as state fields, and a plain creator calling `set`/`get` while it is still being constructed (the store does not exist yet at that point).
- Listener re-entrancy (a listener calling `setState` or `subscribe` during a notification) and listeners that throw. The model's listeners are the library's own closures plus opaque external callbacks whose calls are recorded.
- Spreading an array or a string as a partial update. `Values.Spread` copies an object's fields and nothing for any other value.
- Floating-point numbers, `NaN`, and a non-integer `traceLimit`. Numbers are integers.
- `null` as an option value, and a persist options record whose `key` is missing.
- Middleware applied around React's `create`. The chain is modelled over the vanilla factory only.
- Subscription.FiresIffChanged: compares slices by content, where the source's `!==` compares objects and arrays by reference. Whenever the model fires, the source fires too. The source may also fire for a freshly built object equal in content to the baseline, which the model does not.
- Subscription.EmittedNeverRepeats: the same content comparison as above.
- StoreCore.Reaction: the same content comparison. For a freshly built slice equal in content to the captured one, the source calls `onChange` (src/utils/subscription.ts:12-14) and the model makes no call.
- Subscription.BlockFired: the same content comparison. "Calls nothing otherwise" holds only for slices equal by content. The source also calls `onChange` for a new object with the same content.
- Persist.Open: a failing `get()` at set-up and a falsy stored value are both "nothing pending". The rejected promise the failure creates is not observable and is not modelled.
- Vanilla.CreateStore: opens the persist storages in call order (innermost first), whereas the source opens them outermost first. Opening only reads the backends, so the layers and the state it builds are the same.
