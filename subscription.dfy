/** Selector subscriptions (src/utils/subscription.ts): a listener that keeps
    the last selected slice and calls `onChange` only when the newly selected
    slice differs from it. */
module Subscription {
  import opened Values
  import opened Seqs
  import opened StoreCore

  /** The values handed to the callback `cb`, in call order. */
  function Fired(events: seq<Event>, cb: CallbackId): seq<Value> {
    if events == [] then []
    else
      var n := |events| - 1;
      var e := events[n];
      Fired(events[..n], cb) + (if e.Changed? && e.onChange == cb then [e.value] else [])
  }

  lemma {:induction false} FiredAppend(a: seq<Event>, b: seq<Event>, cb: CallbackId)
    ensures Fired(a + b, cb) == Fired(a, cb) + Fired(b, cb)
    decreases |b|
  {
    if b == [] {
      assert a + b == a;
    } else {
      var n := |b| - 1;
      assert (a + b)[..|a + b| - 1] == a + b[..n];
      FiredAppend(a, b[..n], cb);
    }
  }

  /** The listener is a subscription whose `onChange` is `cb`. */
  predicate Mentions(kind: ListenerKind, cb: CallbackId) {
    kind.CheckForUpdates? && kind.onChange == cb
  }

  /** What notifying one listener hands to `cb`. */
  lemma BlockFired(l: Listener, cap: Value, s: State, cb: CallbackId)
    ensures Fired(Block(l, cap, s), cb) ==
      if Mentions(l.kind, cb) && l.kind.selector(s) != cap then [l.kind.selector(s)] else []
  {
    var b := Block(l, cap, s);
    assert Fired([Called(l, s)], cb) == [] by {
      assert [Called(l, s)][..0] == [];
    }
    if |b| == 2 {
      assert b[..1] == [Called(l, s)];
    } else {
      assert b == [Called(l, s)];
    }
  }

  /** A callback that no registered subscription holds is never called. */
  lemma {:induction false} SilentWithoutSubscriber(ls: seq<Listener>, caps: seq<Value>, s: State, cb: CallbackId)
    requires |caps| == |ls|
    requires forall i :: 0 <= i < |ls| ==> !Mentions(ls[i].kind, cb)
    ensures Fired(Broadcast(ls, caps, s), cb) == []
    decreases |ls|
  {
    if ls != [] {
      var n := |ls| - 1;
      SilentWithoutSubscriber(ls[..n], caps[..n], s, cb);
      FiredAppend(Broadcast(ls[..n], caps[..n], s), Block(ls[n], caps[n], s), cb);
      BlockFired(ls[n], caps[n], s, cb);
    }
  }

  /** One notification calls a subscription's `onChange` with the new slice
      if the slice differs from the subscription's baseline, and does not
      call it otherwise: at most once per `setState`. Other subscriptions
      holding other callbacks do not interfere. */
  lemma {:induction false} FiresIffChanged(ls: seq<Listener>, caps: seq<Value>, s: State, i: nat)
    requires |caps| == |ls| && i < |ls| && ls[i].kind.CheckForUpdates?
    requires forall j :: 0 <= j < |ls| && j != i ==> !Mentions(ls[j].kind, ls[i].kind.onChange)
    ensures Fired(Broadcast(ls, caps, s), ls[i].kind.onChange) ==
      if ls[i].kind.selector(s) != caps[i] then [ls[i].kind.selector(s)] else []
    decreases |ls|, 1
  {
    var cb := ls[i].kind.onChange;
    var n := |ls| - 1;
    var front := Broadcast(ls[..n], caps[..n], s);
    var block := Block(ls[n], caps[n], s);
    assert Broadcast(ls, caps, s) == front + block;
    FiredAppend(front, block, cb);
    BlockFired(ls[n], caps[n], s, cb);
    if i < n {
      FrontFires(ls, caps, s, i);
    } else {
      FrontSilent(ls, caps, s, cb);
    }
  }

  /** The case of `FiresIffChanged` where the subscription is not the last
      listener: the last listener is silent and the rest is the induction. */
  lemma {:induction false} FrontFires(ls: seq<Listener>, caps: seq<Value>, s: State, i: nat)
    requires |caps| == |ls| && i < |ls| - 1 && ls[i].kind.CheckForUpdates?
    requires forall j :: 0 <= j < |ls| && j != i ==> !Mentions(ls[j].kind, ls[i].kind.onChange)
    ensures Fired(Broadcast(ls[..|ls| - 1], caps[..|ls| - 1], s), ls[i].kind.onChange) ==
      if ls[i].kind.selector(s) != caps[i] then [ls[i].kind.selector(s)] else []
    decreases |ls|, 0
  {
    var cb := ls[i].kind.onChange;
    var n := |ls| - 1;
    var front := ls[..n];
    assert front[i] == ls[i] && caps[..n][i] == caps[i];
    forall j | 0 <= j < n && j != i
      ensures !Mentions(front[j].kind, cb)
    {
      assert front[j] == ls[j];
    }
    FiresIffChanged(front, caps[..n], s, i);
  }

  /** The case of `FiresIffChanged` where the subscription is the last
      listener: no listener before it holds its callback. */
  lemma FrontSilent(ls: seq<Listener>, caps: seq<Value>, s: State, cb: CallbackId)
    requires |caps| == |ls| && ls != []
    requires forall j :: 0 <= j < |ls| - 1 ==> !Mentions(ls[j].kind, cb)
    ensures Fired(Broadcast(ls[..|ls| - 1], caps[..|ls| - 1], s), cb) == []
  {
    var n := |ls| - 1;
    forall j | 0 <= j < n
      ensures !Mentions(ls[..n][j].kind, cb)
    {
      assert ls[..n][j] == ls[j];
    }
    SilentWithoutSubscriber(ls[..n], caps[..n], s, cb);
  }

  /** Whether or not it fired, a subscription's baseline afterwards is the
      slice of the new state. */
  lemma BaselineIsLatestSlice(selector: State -> Value, cb: CallbackId, baseline: Value, s: State)
    ensures Recapture(CheckForUpdates(selector, cb), baseline, s) == selector(s)
  {
  }

  /** Once its listener has been deleted, a subscription's `onChange` is not
      called by any later notification. */
  lemma SilentAfterUnsubscribe(ls: seq<Listener>, l: Listener, caps: seq<Value>, s: State)
    requires l.kind.CheckForUpdates?
    requires forall j :: 0 <= j < |ls| && ls[j] != l ==> !Mentions(ls[j].kind, l.kind.onChange)
    requires |caps| == |Without(ls, l)|
    ensures Fired(Broadcast(Without(ls, l), caps, s), l.kind.onChange) == []
  {
    var rest := Without(ls, l);
    forall i | 0 <= i < |rest|
      ensures !Mentions(rest[i].kind, l.kind.onChange)
    {
      assert rest[i] in ls && rest[i] != l;
    }
    SilentWithoutSubscriber(rest, caps, s, l.kind.onChange);
  }

  /** The slices a subscription hands to `onChange` over successive states,
      starting from `baseline`. */
  function Emitted(selector: State -> Value, baseline: Value, states: seq<State>): seq<Value>
    decreases |states|
  {
    if states == [] then []
    else
      var next := selector(states[0]);
      (if next != baseline then [next] else []) + Emitted(selector, next, states[1..])
  }

  /** Change suppression over a run of updates: the first slice handed over
      differs from the baseline and no two consecutive ones are equal. */
  lemma {:induction false} EmittedNeverRepeats(selector: State -> Value, baseline: Value, states: seq<State>)
    ensures var out := Emitted(selector, baseline, states);
      (out != [] ==> out[0] != baseline) &&
      forall i :: 0 < i < |out| ==> out[i - 1] != out[i]
    decreases |states|
  {
    if states != [] {
      EmittedNeverRepeats(selector, selector(states[0]), states[1..]);
    }
  }

  /** `Emitted` is what the store's notifications hand over: over states
      `[s] + rest`, a subscription whose baseline is `caps[i]` passes to its
      `onChange` what one notification of `s` hands it, followed by what
      the later states emit from its recaptured baseline. */
  lemma EmittedUnfolds(ls: seq<Listener>, caps: seq<Value>, s: State, i: nat, rest: seq<State>)
    requires |caps| == |ls| && i < |ls| && ls[i].kind.CheckForUpdates?
    requires forall j :: 0 <= j < |ls| && j != i ==> !Mentions(ls[j].kind, ls[i].kind.onChange)
    ensures Fired(Broadcast(ls, caps, s), ls[i].kind.onChange)
              + Emitted(ls[i].kind.selector, Recapture(ls[i].kind, caps[i], s), rest)
            == Emitted(ls[i].kind.selector, caps[i], [s] + rest)
  {
    FiresIffChanged(ls, caps, s, i);
    assert ([s] + rest)[1..] == rest;
  }

  /** `subscribeToStore`: records the selected slice of the current state as
      the baseline, adds one new listener and returns the store's own
      unsubscribe handle for it. */
  method SubscribeToStore(store: Store, selector: State -> Value, onChange: CallbackId)
    returns (unsubscribe: Unsubscriber)
    requires store.Valid()
    modifies store
    ensures store.Valid() && store.state == old(store.state)
    ensures unsubscribe.store == store && fresh(unsubscribe.listener)
    ensures unsubscribe.listener.kind == CheckForUpdates(selector, onChange)
    ensures unsubscribe.listener.captured == selector(store.state)
    ensures store.listeners == old(store.listeners) + [unsubscribe.listener]
  {
    var current := store.GetState();
    var checkForUpdates := new Listener(CheckForUpdates(selector, onChange), selector(current));
    unsubscribe := store.Subscribe(checkForUpdates);
  }
}
