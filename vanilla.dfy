/** The vanilla store factory (src/vanilla.ts) together with the middleware
    chain built around its `set`: a `Store`, the layers an update passes
    before the vanilla `set`, and the browser storage the persist layers
    write to. */
module Vanilla {
  import opened Results
  import opened Values
  import opened Errors
  import opened StoreCore
  import opened BrowserStorage
  import opened Devtools
  import opened Persist
  import opened Logger
  import opened Layers
  import opened Creators

  /** A layer's standing facts: a persist layer's storage uses the
      pipeline's backends, and a devtools history is within its capacity. */
  predicate LayerFits(l: Layer, backends: Backends) {
    (l.PersistLayer? && l.storage.Some? ==> l.storage.value.backends == backends)
    && (l.DevtoolsLayer? ==> |l.history| <= Capacity(l.config.traceLimit))
  }

  /** The layer a wrapper becomes once its storage, if any, is opened
      against the backends as they are at construction. */
  ghost predicate Opened(w: Wrapper, l: Layer, backends: Backends, json: Json)
    reads backends
  {
    match w
    case DevtoolsWrapper(c) => l == DevtoolsLayer(c, [])
    case LoggerWrapper(o) => l == LoggerLayer(o)
    case PersistWrapper(o) =>
      l.PersistLayer?
      && (l.storage.Some? <==> o.Some? && CheckStorageType(o.value.storageType).Ok?)
      && (l.storage.Some? ==>
            l.storage.value.backends == backends && l.storage.value.key == o.value.key
            && l.storage.value.storageType == CheckStorageType(o.value.storageType).value)
      && l.pending == (if l.storage.None? then None
                       else PendingOf(GetResult(l.storage.value.storageType, l.storage.value.key, json,
                                                backends.entries, backends.failing)))
  }

  /** Replacing element `k` keeps the elements on both sides of it. */
  lemma Replaced(before: seq<Layer>, k: nat, x: Layer)
    requires k < |before|
    ensures before[k := x][..k + 1] == before[..k] + [x]
    ensures before[k := x][k + 1..] == before[k + 1..]
  {
  }

  class Pipeline {
    /** The `Store` the factory returns. */
    const store: Store
    const backends: Backends
    const json: Json
    /** The middleware in the order an update passes them. */
    var layers: seq<Layer>

    ghost predicate Valid()
      reads this, store
    {
      store.Valid() && forall i :: 0 <= i < |layers| ==> LayerFits(layers[i], backends)
    }

    constructor (store: Store, backends: Backends, json: Json, layers: seq<Layer>)
      requires store.Valid() && forall i :: 0 <= i < |layers| ==> LayerFits(layers[i], backends)
      ensures Valid()
      ensures this.store == store && this.backends == backends && this.json == json && this.layers == layers
    {
      this.store := store;
      this.backends := backends;
      this.json := json;
      this.layers := layers;
    }

    /** `getState`: the store's current state. */
    method Get() returns (s: State)
      ensures s == store.state
    {
      s := store.GetState();
    }

    /** The wrapped `set` of layer `k`, or the vanilla `set` when `k` is the
        number of layers. */
    method SetFrom(k: nat, u: Update) returns (events: seq<Event>, result: Unwound)
      requires Valid() && k <= |layers|
      modifies this, store, store.listeners, backends
      ensures Valid()
      ensures |layers| == old(|layers|) && layers[..k] == old(layers[..k])
      ensures layers[k..] == TracedAll(old(layers[k..]), u, old(store.state), json)
      ensures store.state == Final(old(layers[k..]), u, old(store.state))
      ensures store.listeners == old(store.listeners)
      ensures events == Broadcast(store.listeners, old(Captures(store.listeners)), store.state)
      ensures Recaptured(store.listeners, old(Captures(store.listeners)), store.state)
      ensures backends.failing == old(backends.failing)
      ensures result == Unwind(old(layers[k..]), u, old(store.state), store.state, json, backends.failing,
                               Unwound(old(backends.entries), [], Pass))
      ensures backends.entries == result.entries
      decreases |layers| - k, 2
    {
      if k == |layers| {
        events, result := VanillaSet(u);
      } else {
        events, result := Wrapped(k, u);
      }
    }

    /** The vanilla `set`: resolve against the store state, write the
        `resolvedState` field, then merge through `Store.setState`, which
        notifies the listeners. */
    method VanillaSet(u: Update) returns (events: seq<Event>, result: Unwound)
      requires Valid()
      modifies store, store.listeners
      ensures Valid()
      ensures store.state == Final([], u, old(store.state))
      ensures store.listeners == old(store.listeners)
      ensures events == Broadcast(store.listeners, old(Captures(store.listeners)), store.state)
      ensures Recaptured(store.listeners, old(Captures(store.listeners)), store.state)
      ensures result == Unwound(backends.entries, [], Pass)
    {
      ghost var caps := Captures(store.listeners);
      var s := store.GetState();
      var r := Resolve(u, s);
      store.state := s[ResolvedStateKey := r];
      assert Captures(store.listeners) == caps;
      events := store.SetState(r);
      FinalOfEmpty(u, s);
      result := Unwound(backends.entries, [], Pass);
    }

    /** Layer `k`'s wrapped `set`: its own work, the call inward, then its
        work after the inner `set` returns. */
    method Wrapped(k: nat, u: Update) returns (events: seq<Event>, result: Unwound)
      requires Valid() && k < |layers|
      modifies this, store, store.listeners, backends
      ensures Valid()
      ensures |layers| == old(|layers|) && layers[..k] == old(layers[..k])
      ensures layers[k..] == TracedAll(old(layers[k..]), u, old(store.state), json)
      ensures store.state == Final(old(layers[k..]), u, old(store.state))
      ensures store.listeners == old(store.listeners)
      ensures events == Broadcast(store.listeners, old(Captures(store.listeners)), store.state)
      ensures Recaptured(store.listeners, old(Captures(store.listeners)), store.state)
      ensures backends.failing == old(backends.failing)
      ensures result == Unwind(old(layers[k..]), u, old(store.state), store.state, json, backends.failing,
                               Unwound(old(backends.entries), [], Pass))
      ensures backends.entries == result.entries
      decreases |layers| - k, 1
    {
      ghost var chain := layers[k..];
      ghost var start := Unwound(backends.entries, [], Pass);
      var s := store.GetState();
      var layer := layers[k];
      events, result := Descend(k, u, s);
      ChainStep(chain, u, s, store.state, json, backends.failing, start);
      result := After(layer, u, s, result);
    }

    /** The first half of layer `k`'s wrapped `set`: its work before the
        call inward, then the call. */
    method Descend(k: nat, u: Update, s: State) returns (events: seq<Event>, result: Unwound)
      requires Valid() && k < |layers| && s == store.state
      modifies this, store, store.listeners, backends
      ensures Valid()
      ensures |layers| == old(|layers|) && layers[..k] == old(layers[..k])
      ensures layers[k..] == [Traced(old(layers[k]), u, s, json)]
                             + TracedAll(old(layers[k + 1..]), Inward(old(layers[k]), u, s), s, json)
      ensures store.state == Final(old(layers[k + 1..]), Inward(old(layers[k]), u, s), s)
      ensures store.listeners == old(store.listeners)
      ensures events == Broadcast(store.listeners, old(Captures(store.listeners)), store.state)
      ensures Recaptured(store.listeners, old(Captures(store.listeners)), store.state)
      ensures backends.failing == old(backends.failing)
      ensures result == Unwind(old(layers[k + 1..]), Inward(old(layers[k]), u, s), s, store.state, json,
                               backends.failing, Unwound(old(backends.entries), [], Pass))
      ensures backends.entries == result.entries
      decreases |layers| - k, 0
    {
      ghost var caps := Captures(store.listeners);
      ghost var before := layers;
      ghost var rest := layers[k + 1..];
      var layer := layers[k];
      var inward := Inward(layer, u, s);
      Trace(k, u, s);
      ghost var traced := layers;
      assert rest == traced[k + 1..];
      assert Captures(store.listeners) == caps;
      events, result := SetFrom(k + 1, inward);
      SplicedStep(before, traced, layers, k, Traced(layer, u, s, json), TracedAll(rest, inward, s, json));
    }

    /** Layer `k`'s work before it calls inward: a tracing devtools records
        its entry. */
    method Trace(k: nat, u: Update, s: State)
      requires Valid() && k < |layers|
      modifies this
      ensures Valid()
      ensures layers == old(layers)[k := Traced(old(layers)[k], u, s, json)]
    {
      layers := layers[k := Traced(layers[k], u, s, json)];
    }

    /** A layer's work once its inner `set` has returned: persist writes
        the merged state, the logger logs; an earlier throw skips both. */
    method After(layer: Layer, u: Update, s: State, acc: Unwound) returns (result: Unwound)
      requires LayerFits(layer, backends) && acc.entries == backends.entries
      modifies backends
      ensures backends.failing == old(backends.failing)
      ensures result == Post(layer, u, s, store.state, json, backends.failing, acc)
      ensures backends.entries == result.entries
    {
      result := acc;
      if acc.outcome.Pass? {
        match layer
        case DevtoolsLayer(_, _) =>
        case PersistLayer(storage, _) =>
          if storage.Some? {
            var outcome := storage.value.Set(Obj(MergedWith(u, s)), json);
            result := Unwound(backends.entries, acc.logs, if outcome.Pass? then Pass else Fail(ChuBei(outcome.error)));
          }
        case LoggerLayer(options) =>
          var now := store.GetState();
          var logged := Log(options, Obj(Merge(now, Resolve(u, s))));
          result := if logged.Ok? then Unwound(acc.entries, acc.logs + [logged.value], Pass)
                    else Unwound(acc.entries, acc.logs, Fail(logged.error));
      }
    }

    /** The `set` a creator's actions call. */
    method Set(u: Update) returns (events: seq<Event>, result: Unwound)
      requires Valid()
      modifies this, store, store.listeners, backends
      ensures Valid()
      ensures layers == TracedAll(old(layers), u, old(store.state), json)
      ensures store.state == Final(old(layers), u, old(store.state))
      ensures store.listeners == old(store.listeners)
      ensures events == Broadcast(store.listeners, old(Captures(store.listeners)), store.state)
      ensures Recaptured(store.listeners, old(Captures(store.listeners)), store.state)
      ensures backends.failing == old(backends.failing)
      ensures result == Unwind(old(layers), u, old(store.state), store.state, json, backends.failing,
                               Unwound(old(backends.entries), [], Pass))
      ensures backends.entries == result.entries
    {
      assert layers[0..] == layers;
      events, result := SetFrom(0, u);
      assert layers[0..] == layers;
    }

    /** The deferred end of persist layer `k`'s async block: the value read
        at construction, if truthy, is passed once to that layer's inner
        `set`; the layer itself writes nothing. */
    method Hydrate(k: nat) returns (events: seq<Event>, result: Unwound)
      requires Valid() && k < |layers| && layers[k].PersistLayer?
      modifies this, store, store.listeners, backends
      ensures Valid()
      ensures |layers| == old(|layers|) && store.listeners == old(store.listeners)
      ensures old(layers[k].pending).None? ==>
        layers == old(layers) && store.state == old(store.state) && events == []
        && backends.entries == old(backends.entries) && result == Unwound(backends.entries, [], Pass)
        && Captures(store.listeners) == old(Captures(store.listeners))
      ensures old(layers[k].pending).Some? ==>
        var v := old(layers[k].pending.value);
        layers[..k + 1] == old(layers[..k]) + [old(layers[k]).(pending := None)]
        && layers[k + 1..] == TracedAll(old(layers[k + 1..]), Literal(v), old(store.state), json)
        && store.state == Final(old(layers[k + 1..]), Literal(v), old(store.state))
        && events == Broadcast(store.listeners, old(Captures(store.listeners)), store.state)
        && Recaptured(store.listeners, old(Captures(store.listeners)), store.state)
        && result == Unwind(old(layers[k + 1..]), Literal(v), old(store.state), store.state, json, backends.failing,
                            Unwound(old(backends.entries), [], Pass))
      ensures backends.failing == old(backends.failing) && backends.entries == result.entries
    {
      var pending := layers[k].pending;
      if pending.None? {
        events, result := [], Unwound(backends.entries, [], Pass);
      } else {
        ghost var before := layers;
        var drained := layers[k].(pending := None);
        layers := layers[k := drained];
        Replaced(before, k, drained);
        ghost var traced := layers;
        events, result := SetFrom(k + 1, Literal(pending.value));
        assert layers[..k + 1] == traced[..k + 1];
      }
    }
  }

  /** Replacing element `k` and then rewriting everything after it leaves
      the prefix before `k` as it was. */
  lemma SplicedStep(before: seq<Layer>, traced: seq<Layer>, after: seq<Layer>, k: nat, x: Layer, rest: seq<Layer>)
    requires k < |before| && traced == before[k := x]
    requires |after| == |traced| && after[..k + 1] == traced[..k + 1] && after[k + 1..] == rest
    ensures after[..k] == before[..k]
    ensures after[k..] == [x] + rest
  {
    assert after[..k] == after[..k + 1][..k];
    assert after[k] == after[..k + 1][k];
    assert after[k..] == [after[k]] + after[k + 1..];
  }

  /** `createStore`: the arity check, then the creator chain is called and
      its result becomes the initial state of a new `Store`. */
  method CreateStore(creator: Creator, backends: Backends, json: Json) returns (r: Result<Pipeline, Thrown>)
    ensures r.Err? <==> !Accepted(creator) || Plan(creator).Err?
    ensures !Accepted(creator) ==> r == Err(ChuBei(StoreCreatorRequiredError()))
    ensures Accepted(creator) && Plan(creator).Err? ==> r == Err(Plan(creator).error)
    ensures r.Ok? ==>
      var (wrappers, initial) := Plan(creator).value;
      fresh(r.value) && fresh(r.value.store) && r.value.Valid()
      && r.value.store.state == initial && r.value.store.listeners == []
      && r.value.backends == backends && r.value.json == json
      && |r.value.layers| == |wrappers|
      && forall i :: 0 <= i < |wrappers| ==> Opened(wrappers[i], r.value.layers[i], backends, json)
  {
    if !Accepted(creator) {
      return Err(ChuBei(StoreCreatorRequiredError()));
    }
    var plan := Plan(creator);
    if plan.Err? {
      return Err(plan.error);
    }
    var (wrappers, initial) := plan.value;
    var layers: seq<Layer> := [];
    var i := 0;
    while i < |wrappers|
      invariant 0 <= i <= |wrappers| && |layers| == i
      invariant forall j :: 0 <= j < i ==> Opened(wrappers[j], layers[j], backends, json)
      invariant forall j :: 0 <= j < i ==> LayerFits(layers[j], backends)
    {
      var w := wrappers[i];
      var layer: Layer;
      if w.DevtoolsWrapper? {
        layer := DevtoolsLayer(w.config, []);
      } else if w.LoggerWrapper? {
        layer := LoggerLayer(w.loggerOptions);
      } else {
        var storage, pending := Open(w.persistOptions, backends, json);
        layer := PersistLayer(storage, pending);
      }
      layers := layers + [layer];
      i := i + 1;
    }
    var store := new Store(initial);
    var pipeline := new Pipeline(store, backends, json, layers);
    r := Ok(pipeline);
  }
}
