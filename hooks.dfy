/** The two store hooks (src/hooks/useStore.ts, src/hooks/useSelector.ts). */
module Hooks {
  import opened Values
  import opened StoreCore
  import opened Subscription

  /** `useStore` forwards to `subscribeToStore` and returns its handle. */
  method UseStore(store: Store, selector: State -> Value, onUpdate: CallbackId)
    returns (unsubscribe: Unsubscriber)
    requires store.Valid()
    modifies store
    ensures store.Valid() && store.state == old(store.state)
    ensures unsubscribe.store == store && fresh(unsubscribe.listener)
    ensures unsubscribe.listener.kind == CheckForUpdates(selector, onUpdate)
    ensures unsubscribe.listener.captured == selector(store.state)
    ensures store.listeners == old(store.listeners) + [unsubscribe.listener]
  {
    unsubscribe := SubscribeToStore(store, selector, onUpdate);
  }

  /** `useSelector`: returns the slice of the state as it is now, and adds a
      listener that only rebinds the hook's local copy; no handle to remove
      it is returned, so every call leaves one more listener behind. */
  method UseSelector(store: Store, selector: State -> Value) returns (selected: Value)
    requires store.Valid()
    modifies store
    ensures store.Valid() && store.state == old(store.state)
    ensures selected == selector(store.state)
    ensures |store.listeners| == |old(store.listeners)| + 1
    ensures store.listeners[..|old(store.listeners)|] == old(store.listeners)
    ensures var leaked := store.listeners[|old(store.listeners)|];
      fresh(leaked) && leaked.kind == Rebind(selector) && leaked.captured == selected
  {
    var current := store.GetState();
    selected := selector(current);
    var rebind := new Listener(Rebind(selector), selected);
    var _ := store.Subscribe(rebind);
  }

  /** The leaked listener's rebinding follows every later state, while the
      value the hook already returned stays what it was. */
  lemma RebindFollowsState(selector: State -> Value, local: Value, s: State)
    ensures Recapture(Rebind(selector), local, s) == selector(s)
    ensures Reaction(Rebind(selector), local, s) == []
  {
  }
}
