/** The state container (src/core/store.ts): one state value, a `Set` of
    listeners kept in insertion order, a shallow-merge `setState` that always
    replaces the state and notifies every listener once. */
module StoreCore {
  import opened Values
  import opened Seqs

  /** Names an outside callback (an `onChange` passed to a subscription). */
  type CallbackId = nat

  /** The code of a listener closure. `External` is a callback the model does
      not look into (its call is recorded and nothing else);
      `CheckForUpdates` is the closure built by `subscribeToStore`
      (src/utils/subscription.ts:10-16); `Rebind` is the closure built by
      `useSelector` (src/hooks/useSelector.ts:9-11). */
  datatype ListenerKind =
    | External
    | CheckForUpdates(selector: State -> Value, onChange: CallbackId)
    | Rebind(selector: State -> Value)

  /** A listener closure: its code, and the variable it captured and may
      reassign (`currentState` or `selectedState`). Its identity is the
      object's identity, as a closure's is in JavaScript. */
  class Listener {
    const kind: ListenerKind
    var captured: Value

    constructor (kind: ListenerKind, captured: Value)
      ensures this.kind == kind && this.captured == captured
    {
      this.kind := kind;
      this.captured := captured;
    }

    /** Calls the closure with the new state. */
    method Invoke(s: State) returns (effects: seq<Event>)
      modifies this
      ensures captured == Recapture(kind, old(captured), s)
      ensures effects == Reaction(kind, old(captured), s)
    {
      effects := [];
      match kind
      case External =>
      case CheckForUpdates(selector, onChange) =>
        var next := selector(s);
        if next != captured {
          captured := next;
          effects := [Changed(onChange, next)];
        }
      case Rebind(selector) =>
        captured := selector(s);
    }
  }

  /** What a notification makes observable: a listener being called with a
      state, and a subscription's `onChange` being called with a slice. */
  datatype Event =
    | Called(listener: Listener, state: State)
    | Changed(onChange: CallbackId, value: Value)

  /** The captured variable after the closure ran on `s`. */
  function Recapture(kind: ListenerKind, captured: Value, s: State): (c: Value)
    ensures kind.External? ==> c == captured
    ensures !kind.External? ==> c == kind.selector(s)
  {
    match kind
    case External => captured
    case CheckForUpdates(selector, _) => if selector(s) != captured then selector(s) else captured
    case Rebind(selector) => selector(s)
  }

  /** The calls the closure makes when it runs on `s`. */
  function Reaction(kind: ListenerKind, captured: Value, s: State): (r: seq<Event>)
    ensures |r| <= 1
    ensures r != [] <==> kind.CheckForUpdates? && kind.selector(s) != captured
    ensures r != [] ==> r[0] == Changed(kind.onChange, Recapture(kind, captured, s))
  {
    match kind
    case CheckForUpdates(selector, onChange) =>
      if selector(s) != captured then [Changed(onChange, selector(s))] else []
    case _ => []
  }

  /** The captured variables of a sequence of listeners. */
  function Captures(ls: seq<Listener>): (caps: seq<Value>)
    reads ls
    ensures |caps| == |ls|
    ensures forall i :: 0 <= i < |ls| ==> caps[i] == ls[i].captured
  {
    if ls == [] then [] else Captures(ls[..|ls| - 1]) + [ls[|ls| - 1].captured]
  }

  /** Everything observable when listeners `ls`, whose captured variables
      hold `caps`, are notified of `s` one after the other. */
  function Broadcast(ls: seq<Listener>, caps: seq<Value>, s: State): (events: seq<Event>)
    requires |caps| == |ls|
    ensures ls != [] ==> events != [] && events[0] == Called(ls[0], s)
    decreases |ls|
  {
    if ls == [] then []
    else
      var n := |ls| - 1;
      Broadcast(ls[..n], caps[..n], s) + Block(ls[n], caps[n], s)
  }

  /** Each listener contributes its own call and at most one call of its
      closure's. */
  lemma {:induction false} BroadcastLength(ls: seq<Listener>, caps: seq<Value>, s: State)
    requires |caps| == |ls|
    ensures |ls| <= |Broadcast(ls, caps, s)| <= 2 * |ls|
    decreases |ls|
  {
    if ls != [] {
      var n := |ls| - 1;
      BroadcastLength(ls[..n], caps[..n], s);
    }
  }

  /** What notifying one listener makes observable: its call, then the calls
      its closure makes. */
  function Block(l: Listener, cap: Value, s: State): seq<Event> {
    [Called(l, s)] + Reaction(l.kind, cap, s)
  }

  /** The listeners called, in call order. */
  function Callees(events: seq<Event>): seq<Listener> {
    if events == [] then []
    else
      var n := |events| - 1;
      Callees(events[..n]) + (if events[n].Called? then [events[n].listener] else [])
  }

  lemma {:induction false} CalleesAppend(a: seq<Event>, b: seq<Event>)
    ensures Callees(a + b) == Callees(a) + Callees(b)
    decreases |b|
  {
    if b == [] {
      assert a + b == a;
    } else {
      var n := |b| - 1;
      assert (a + b)[..|a + b| - 1] == a + b[..n];
      CalleesAppend(a, b[..n]);
    }
  }

  lemma BlockCallees(l: Listener, cap: Value, s: State)
    ensures Callees(Block(l, cap, s)) == [l]
  {
    var b := Block(l, cap, s);
    var r := Reaction(l.kind, cap, s);
    assert Callees([Called(l, s)]) == [l] by {
      assert [Called(l, s)][..0] == [];
    }
    if r == [] {
      assert b == [Called(l, s)];
    } else {
      assert |r| == 1 && r[0].Changed?;
      assert b[..1] == [Called(l, s)];
      assert b[..|b| - 1] == [Called(l, s)];
    }
  }

  /** One notification calls every listener once, in registration order. */
  lemma {:induction false} CalledInOrder(ls: seq<Listener>, caps: seq<Value>, s: State)
    requires |caps| == |ls|
    ensures Callees(Broadcast(ls, caps, s)) == ls
    decreases |ls|
  {
    if ls != [] {
      var n := |ls| - 1;
      var front := Broadcast(ls[..n], caps[..n], s);
      var block := Block(ls[n], caps[n], s);
      calc {
        Callees(Broadcast(ls, caps, s));
        { BroadcastLast(ls, caps, s); }
        Callees(front + block);
        { CalleesAppend(front, block); }
        Callees(front) + Callees(block);
        { CalledInOrder(ls[..n], caps[..n], s); BlockCallees(ls[n], caps[n], s); }
        ls[..n] + [ls[n]];
      }
      assert ls[..n] + [ls[n]] == ls;
    }
  }

  /** A notification is that of all but the last listener, then the last
      listener's block. */
  lemma BroadcastLast(ls: seq<Listener>, caps: seq<Value>, s: State)
    requires |caps| == |ls| && ls != []
    ensures Broadcast(ls, caps, s)
      == Broadcast(ls[..|ls| - 1], caps[..|ls| - 1], s) + Block(ls[|ls| - 1], caps[|ls| - 1], s)
  {
  }

  /** Every listener called in a notification is handed the new state. */
  lemma {:induction false} CalledWithNewState(ls: seq<Listener>, caps: seq<Value>, s: State, i: nat)
    requires |caps| == |ls|
    requires i < |Broadcast(ls, caps, s)| && Broadcast(ls, caps, s)[i].Called?
    ensures Broadcast(ls, caps, s)[i].state == s
    decreases |ls|
  {
    var n := |ls| - 1;
    var prefix := Broadcast(ls[..n], caps[..n], s);
    if i < |prefix| {
      CalledWithNewState(ls[..n], caps[..n], s, i);
    }
  }

  /** For registered listeners, which never repeat: each is called exactly
      once per notification. */
  lemma CalledExactlyOnce(ls: seq<Listener>, caps: seq<Value>, s: State, l: Listener)
    requires |caps| == |ls| && Distinct(ls) && l in ls
    ensures Count(Callees(Broadcast(ls, caps, s)), l) == 1
  {
    CalledInOrder(ls, caps, s);
    DistinctCountOne(ls, l);
  }

  /** Returned by `subscribe`: `() => this.listeners.delete(listener)`. */
  datatype Unsubscriber = Unsubscriber(store: Store, listener: Listener)

  class Store {
    var state: State
    var listeners: seq<Listener>

    ghost predicate Valid()
      reads this
    {
      Distinct(listeners)
    }

    constructor (initialState: State)
      ensures Valid()
      ensures state == initialState && listeners == []
    {
      state := initialState;
      listeners := [];
    }

    method GetState() returns (s: State)
      ensures s == state
    {
      s := state;
    }

    /** Merges the partial into the state, stores the result whether or not
        it differs, then notifies every listener of the stored state. */
    method SetState(partial: Value) returns (events: seq<Event>)
      requires Valid()
      modifies this, listeners
      ensures Valid()
      ensures state == Merge(old(state), partial)
      ensures listeners == old(listeners)
      ensures events == Broadcast(listeners, old(Captures(listeners)), state)
      ensures Recaptured(listeners, old(Captures(listeners)), state)
    {
      state := Merge(state, partial);
      events := NotifyListeners();
    }

    /** Adds a listener; adding one already present changes nothing. */
    method Subscribe(listener: Listener) returns (unsubscribe: Unsubscriber)
      requires Valid()
      modifies this
      ensures Valid()
      ensures state == old(state)
      ensures listeners == if listener in old(listeners) then old(listeners) else old(listeners) + [listener]
      ensures unsubscribe == Unsubscriber(this, listener)
    {
      if listener !in listeners {
        AppendDistinct(listeners, listener);
        listeners := listeners + [listener];
      }
      unsubscribe := Unsubscriber(this, listener);
    }

    /** `Set.delete`: removes the listener if present, reporting whether it was. */
    method Delete(listener: Listener) returns (deleted: bool)
      requires Valid()
      modifies this
      ensures Valid()
      ensures state == old(state)
      ensures deleted == (listener in old(listeners))
      ensures listeners == Without(old(listeners), listener)
    {
      deleted := listener in listeners;
      WithoutDistinct(listeners, listener);
      listeners := Without(listeners, listener);
    }

    /** Calls the listener at position `i`, the first `i` having been
        notified; being distinct from the others, it is the only listener
        whose captured variable changes. */
    method NotifyAt(i: nat, ghost caps: seq<Value>, events: seq<Event>) returns (next: seq<Event>)
      requires Valid() && i < |listeners| && Notified(listeners, caps, state, i, events)
      modifies listeners[i]
      ensures Notified(listeners, caps, state, i + 1, next)
    {
      var listener := listeners[i];
      var effects := listener.Invoke(state);
      forall j | 0 <= j < |listeners| && j != i
        ensures listeners[j].captured == old(listeners[j].captured)
      {
        assert listeners[j] != listener;
      }
      BroadcastStep(listeners, caps, state, i);
      next := events + ([Called(listener, state)] + effects);
    }

    /** Calls each listener with the current state, in insertion order. */
    method NotifyListeners() returns (events: seq<Event>)
      requires Valid()
      modifies listeners
      ensures events == Broadcast(listeners, old(Captures(listeners)), state)
      ensures Recaptured(listeners, old(Captures(listeners)), state)
    {
      ghost var caps := Captures(listeners);
      events := [];
      var i := 0;
      while i < |listeners|
        invariant i <= |listeners| && Notified(listeners, caps, state, i, events)
      {
        events := NotifyAt(i, caps, events);
        i := i + 1;
      }
      BroadcastWhole(listeners, caps, state);
    }
  }

  /** After the first `i` of listeners `ls`, which held `caps`, were notified
      of `s`: `events` is what became observable, those `i` have recaptured
      and the rest are untouched. */
  ghost predicate Notified(ls: seq<Listener>, caps: seq<Value>, s: State, i: nat, events: seq<Event>)
    reads ls
  {
    && |caps| == |ls| && i <= |ls|
    && events == Broadcast(ls[..i], caps[..i], s)
    && Reacted(ls, caps, s, i)
  }

  /** The first `i` of listeners `ls`, which held `caps`, have recaptured on
      `s`, and the others still hold what they held. */
  ghost predicate Reacted(ls: seq<Listener>, caps: seq<Value>, s: State, i: nat)
    requires |caps| == |ls| && i <= |ls|
    reads ls
  {
    && (forall j :: 0 <= j < i ==> ls[j].captured == Recapture(ls[j].kind, caps[j], s))
    && (forall j :: i <= j < |ls| ==> ls[j].captured == caps[j])
  }

  /** Every listener of `ls`, which held `caps`, has recaptured on `s`. */
  ghost predicate Recaptured(ls: seq<Listener>, caps: seq<Value>, s: State)
    requires |caps| == |ls|
    reads ls
  {
    forall i :: 0 <= i < |ls| ==> ls[i].captured == Recapture(ls[i].kind, caps[i], s)
  }

  /** Notifying one more listener extends the broadcast by its block. */
  lemma BroadcastStep(ls: seq<Listener>, caps: seq<Value>, s: State, i: nat)
    requires |caps| == |ls| && i < |ls|
    ensures Broadcast(ls[..i + 1], caps[..i + 1], s) == Broadcast(ls[..i], caps[..i], s) + Block(ls[i], caps[i], s)
  {
    assert ls[..i + 1][..i] == ls[..i];
    assert caps[..i + 1][..i] == caps[..i];
  }

  lemma BroadcastWhole(ls: seq<Listener>, caps: seq<Value>, s: State)
    requires |caps| == |ls|
    ensures Broadcast(ls[..|ls|], caps[..|ls|], s) == Broadcast(ls, caps, s)
  {
    assert ls[..|ls|] == ls;
    assert caps[..|ls|] == caps;
  }

  /** Calls an unsubscribe handle. */
  method Unsubscribe(u: Unsubscriber) returns (deleted: bool)
    requires u.store.Valid()
    modifies u.store
    ensures u.store.Valid()
    ensures u.store.state == old(u.store.state)
    ensures deleted == (u.listener in old(u.store.listeners))
    ensures u.store.listeners == Without(old(u.store.listeners), u.listener)
  {
    deleted := u.store.Delete(u.listener);
  }
}
