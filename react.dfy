/** The React factory's store (src/react.ts:8-26, 34, 37): the same arity
    check as the vanilla factory, a closure `state`, and an array of
    component listeners, one new closure per mount.
    Unlike the vanilla store it never resolves a functional update and calls
    its listeners without arguments. */
module React {
  import opened Results
  import opened Values
  import opened Errors
  import opened Seqs
  import opened Creators

  /** A mounted component's listener `() => setReactState(prev => prev + 1)`,
      identified by the component it re-renders. */
  type ComponentListener = nat

  /** `{ ...state, ...newState }` with the update as given: spreading a
      function copies no fields, so a functional update changes nothing. */
  function SpreadUpdate(s: State, u: Update): (r: State)
    ensures u.Literal? ==> r == Merge(s, u.partial)
    ensures u.Functional? ==> r == s
  {
    if u.Literal? then Merge(s, u.partial) else s
  }

  /** React's store writes no `resolvedState` field of its own. */
  lemma NoResolvedStateField(s: State, u: Update)
    requires "resolvedState" !in s
    requires u.Literal? ==> "resolvedState" !in Spread(u.partial)
    ensures "resolvedState" !in SpreadUpdate(s, u)
  {
  }

  class ClosureStore {
    var state: State
    var listeners: seq<ComponentListener>

    constructor (initial: State)
      ensures state == initial && listeners == []
    {
      state := initial;
      listeners := [];
    }

    /** `setState`: merge, then call every entry of the listener array in
        order, a listener present twice being called twice. */
    method SetState(u: Update) returns (calls: seq<ComponentListener>)
      modifies this
      ensures state == SpreadUpdate(old(state), u)
      ensures listeners == old(listeners)
      ensures calls == listeners
    {
      state := SpreadUpdate(state, u);
      calls := [];
      var i := 0;
      while i < |listeners|
        invariant 0 <= i <= |listeners|
        invariant calls == listeners[..i]
      {
        calls := calls + [listeners[i]];
        i := i + 1;
      }
    }

    /** `getState`: the closure's current state. */
    method GetState() returns (s: State)
      ensures s == state
    {
      s := state;
    }

    /** A component mounts: `listeners.push(listener)`. */
    method AddListener(l: ComponentListener)
      modifies this
      ensures state == old(state)
      ensures listeners == old(listeners) + [l]
    {
      listeners := listeners + [l];
    }

    /** A component unmounts: `listeners.filter((x) => x !== l)`. */
    method RemoveListener(l: ComponentListener)
      modifies this
      ensures state == old(state)
      ensures listeners == Without(old(listeners), l)
    {
      listeners := Without(listeners, l);
    }
  }

  /** Each mount builds a new listener closure, so the listener pushed is
      not yet in the array: every `setState` then calls it exactly once. */
  lemma MountedCalledOnce(ls: seq<ComponentListener>, l: ComponentListener)
    requires l !in ls
    ensures Count(ls + [l], l) == 1
  {
    CountAppend(ls, [l], l);
    CountAbsent(ls, l);
  }

  /** Unmounting removes what mounting pushed and leaves the array as it was
      before the mount. */
  lemma {:induction false} MountThenUnmount(ls: seq<ComponentListener>, l: ComponentListener)
    requires l !in ls
    ensures Without(ls + [l], l) == ls
  {
    if ls == [] {
      assert Without([l], l) == [] + Without([], l);
    } else {
      assert (ls + [l])[1..] == ls[1..] + [l];
      MountThenUnmount(ls[1..], l);
    }
  }

  /** Removing a listener removes every one of its entries and leaves the
      number of entries of every other listener as it was. */
  lemma RemovalRemovesAll(ls: seq<ComponentListener>, l: ComponentListener, other: ComponentListener)
    requires other != l
    ensures Count(Without(ls, l), l) == 0
    ensures Count(Without(ls, l), other) == Count(ls, other)
  {
    CountWithout(ls, l, l);
    CountWithout(ls, l, other);
  }

  /** `create`: the arity check, then the creator chain is called and its
      result is the closure's initial state. */
  method Create(creator: Creator) returns (r: Result<ClosureStore, Thrown>)
    ensures r.Err? <==> !Accepted(creator) || Plan(creator).Err?
    ensures !Accepted(creator) ==> r == Err(ChuBei(StoreCreatorRequiredError()))
    ensures Accepted(creator) && Plan(creator).Err? ==> r == Err(Plan(creator).error)
    ensures r.Ok? ==> fresh(r.value) && r.value.state == Plan(creator).value.1 && r.value.listeners == []
  {
    if !Accepted(creator) {
      return Err(ChuBei(StoreCreatorRequiredError()));
    }
    var plan := Plan(creator);
    if plan.Err? {
      return Err(plan.error);
    }
    var store := new ClosureStore(plan.value.1);
    r := Ok(store);
  }
}
