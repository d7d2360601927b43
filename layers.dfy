/** The semantics of the middleware chain: what each wrapped `set` passes to
    the `set` it wraps (src/core/middleware/devtools.ts:39-70,
    src/core/middleware/persist.ts:26-35, src/core/middleware/logger.ts:42-50),
    what the vanilla `set` finally does with it (src/vanilla.ts:24-32), and
    the effects each layer has once the inner `set` has returned.

    Layers are listed in the order an update passes through them: the first
    is the `set` a creator's actions call (the innermost middleware in the
    source's nesting), the last hands its update to the vanilla `set`.
    No layer changes the store before calling inward; only the vanilla
    `set` does. So every layer that reads `get()` sees the same store state
    `s` (a disabled devtools reads nothing). */
module Layers {
  import opened Results
  import opened Values
  import opened Errors
  import opened BrowserStorage
  import opened Devtools
  import opened Logger

  /** One middleware instance with the state it keeps. */
  datatype Layer =
    | DevtoolsLayer(config: Config, history: seq<string>)
    | PersistLayer(storage: Option<Storage>, pending: Option<Value>)
    | LoggerLayer(options: Option<LoggerOptions>)

  /** The field the vanilla `set` adds by writing `{ ...state, resolvedState }`. */
  const ResolvedStateKey := "resolvedState"

  /** The vanilla `set` applied to a resolved partial `r` on store state `s`:
      first the shorthand property `resolvedState` is added, then the store
      merges `r`. Every data field is the plain merge; the extra field holds
      `r` unless `r` itself carries a field of that name. */
  function Settle(s: State, r: Value): (t: State)
    ensures ResolvedStateKey in t
    ensures forall k :: k != ResolvedStateKey ==> (k in t <==> k in Merge(s, r))
    ensures forall k :: k != ResolvedStateKey && k in t ==> t[k] == Merge(s, r)[k]
    ensures ResolvedStateKey !in Spread(r) ==> t[ResolvedStateKey] == r
    ensures ResolvedStateKey in Spread(r) ==> t[ResolvedStateKey] == Spread(r)[ResolvedStateKey]
  {
    Merge(s[ResolvedStateKey := r], r)
  }

  /** `{ ...currentState, ...resolvedState }` for an update on state `s`. */
  function MergedWith(u: Update, s: State): (m: State)
    ensures m.Keys == s.Keys + Spread(Resolve(u, s)).Keys
    ensures Merge(s, Obj(m)) == m
  {
    Merge(s, Resolve(u, s))
  }

  /** What one layer's wrapped `set` passes to the `set` it wraps: a disabled
      devtools forwards the update untouched; an enabled devtools and persist
      pass the full merged state; the logger passes the resolved partial. */
  function Inward(l: Layer, u: Update, s: State): (r: Update)
    ensures MergedWith(r, s) == MergedWith(u, s)
    ensures r.Functional? ==> r == u && l.DevtoolsLayer? && !l.config.enabled
  {
    MergeAbsorbs(s, Resolve(u, s));
    match l
    case DevtoolsLayer(c, _) => if c.enabled then Literal(Obj(MergedWith(u, s))) else u
    case PersistLayer(_, _) => Literal(Obj(MergedWith(u, s)))
    case LoggerLayer(_) => Literal(Resolve(u, s))
  }

  /** The update that reaches the vanilla `set` after passing `ls`. */
  function Reaching(ls: seq<Layer>, u: Update, s: State): (r: Update)
    ensures r.Functional? ==> r == u && AllForward(ls)
    decreases |ls|
  {
    if ls == [] then u else Reaching(ls[1..], Inward(ls[0], u, s), s)
  }

  /** A layer that hands its update inward untouched: a disabled devtools. */
  predicate Forwards(l: Layer) {
    l.DevtoolsLayer? && !l.config.enabled
  }

  /** Every layer of `ls` hands its update inward untouched. */
  predicate AllForward(ls: seq<Layer>) {
    forall i :: 0 <= i < |ls| ==> Forwards(ls[i])
  }

  /** A layer that hands the whole merged state inward: persist, or an
      enabled devtools. */
  predicate Absorbs(l: Layer) {
    l.PersistLayer? || (l.DevtoolsLayer? && l.config.enabled)
  }

  /** The store state after one update through `ls`: it gains exactly the
      fields of the update, and `resolvedState`. */
  function Final(ls: seq<Layer>, u: Update, s: State): (t: State)
    ensures t.Keys == MergedWith(u, s).Keys + {ResolvedStateKey}
  {
    ReachingAgrees(ls, u, s);
    Settle(s, Resolve(Reaching(ls, u, s), s))
  }

  /** A layer after its own work before calling inward: an enabled, tracing
      devtools records one entry; nothing else changes. */
  function Traced(l: Layer, u: Update, s: State, json: Json): (r: Layer)
    ensures !l.DevtoolsLayer? ==> r == l
    ensures l.DevtoolsLayer? ==> r.DevtoolsLayer? && r.config == l.config
    ensures l.DevtoolsLayer? && !(l.config.enabled && l.config.trace) ==> r == l
    ensures l.DevtoolsLayer? && l.config.enabled && l.config.trace ==>
      r.history == Record(l.history, Entry(l.config, json, MergedWith(u, s)), l.config.traceLimit)
  {
    match l
    case DevtoolsLayer(c, h) =>
      if c.enabled && c.trace then DevtoolsLayer(c, Record(h, Entry(c, json, MergedWith(u, s)), c.traceLimit)) else l
    case _ => l
  }

  /** `b` is layer `a` with at most its devtools history changed. */
  predicate SameSetup(a: Layer, b: Layer) {
    if a.DevtoolsLayer? then b.DevtoolsLayer? && b.config == a.config else b == a
  }

  /** Every layer of `ls` after one update has passed through it. */
  function TracedAll(ls: seq<Layer>, u: Update, s: State, json: Json): (r: seq<Layer>)
    ensures |r| == |ls|
    ensures forall i :: 0 <= i < |ls| ==> SameSetup(ls[i], r[i])
    decreases |ls|
  {
    if ls == [] then [] else [Traced(ls[0], u, s, json)] + TracedAll(ls[1..], Inward(ls[0], u, s), s, json)
  }

  /** The backend entries, the log events and the outcome as the wrapped
      `set` calls return, innermost first. */
  datatype Unwound = Unwound(entries: Entries, logs: seq<LogEvent>, outcome: Outcome<Thrown>)

  /** One layer's work after its inner `set` returned normally (`acc`) or
      threw (then nothing more runs): persist writes the merged state when
      it has a storage, and a write failure propagates; the logger logs the
      store state as it now is merged with the resolved partial. */
  function Post(l: Layer, u: Update, s: State, final: State, json: Json, failing: set<StorageType>, acc: Unwound): (r: Unwound)
    ensures acc.outcome.Fail? ==> r == acc
    ensures acc.logs <= r.logs && |r.logs| <= |acc.logs| + 1
    ensures !l.PersistLayer? ==> r.entries == acc.entries
  {
    if acc.outcome.Fail? then acc
    else match l
      case DevtoolsLayer(_, _) => acc
      case PersistLayer(storage, _) =>
        if storage.None? then acc
        else
          var w := SetEffect(storage.value.storageType, storage.value.key, Obj(MergedWith(u, s)), json, acc.entries, failing);
          Unwound(w.entries, acc.logs, if w.outcome.Pass? then Pass else Fail(ChuBei(w.outcome.error)))
      case LoggerLayer(o) =>
        match Log(o, Obj(Merge(final, Resolve(u, s))))
        case Ok(e) => Unwound(acc.entries, acc.logs + [e], Pass)
        case Err(t) => Unwound(acc.entries, acc.logs, Fail(t))
  }

  /** The work of every layer of `ls` after the vanilla `set` left the store
      at `final`, from the last layer back to the first. */
  function Unwind(ls: seq<Layer>, u: Update, s: State, final: State, json: Json, failing: set<StorageType>, start: Unwound): (r: Unwound)
    ensures start.logs <= r.logs && |r.logs| <= |start.logs| + |ls|
    decreases |ls|
  {
    if ls == [] then start
    else Post(ls[0], u, s, final, json, failing, Unwind(ls[1..], Inward(ls[0], u, s), s, final, json, failing, start))
  }

  /** With no layers, the update goes straight to the vanilla `set`. */
  lemma FinalOfEmpty(u: Update, s: State)
    ensures Final([], u, s) == Settle(s, Resolve(u, s))
  {
  }

  /** The first layer of a chain and the rest of it, one step apart. */
  lemma ChainStep(ls: seq<Layer>, u: Update, s: State, final: State, json: Json, failing: set<StorageType>, start: Unwound)
    requires ls != []
    ensures TracedAll(ls, u, s, json) == [Traced(ls[0], u, s, json)] + TracedAll(ls[1..], Inward(ls[0], u, s), s, json)
    ensures Final(ls, u, s) == Final(ls[1..], Inward(ls[0], u, s), s)
    ensures Unwind(ls, u, s, final, json, failing, start)
      == Post(ls[0], u, s, final, json, failing, Unwind(ls[1..], Inward(ls[0], u, s), s, final, json, failing, start))
  {
  }

  // ---------------------------------------------------------------------
  // Properties of the chain

  /** Merging a state with its own merge changes nothing. */
  lemma MergeAbsorbs(s: State, p: Value)
    ensures Merge(s, Obj(Merge(s, p))) == Merge(s, p)
  {
    assert Merge(s, Obj(Merge(s, p))) == s + (s + Spread(p));
  }

  /** Whatever each layer passes inward, the update that reaches the vanilla
      `set` merges into the store state exactly as the original update. */
  lemma {:induction false} ReachingAgrees(ls: seq<Layer>, u: Update, s: State)
    ensures MergedWith(Reaching(ls, u, s), s) == MergedWith(u, s)
    decreases |ls|
  {
    if ls != [] {
      var v := Inward(ls[0], u, s);
      ReachingAgrees(ls[1..], v, s);
      if v != u && !ls[0].LoggerLayer? {
        MergeAbsorbs(s, Resolve(u, s));
      }
    }
  }

  /** The data fields after an update through any chain of layers are the
      plain merge of the update into the state; the state also always holds
      the `resolvedState` field. */
  lemma DataFieldsAgree(ls: seq<Layer>, u: Update, s: State)
    ensures Final(ls, u, s) - {ResolvedStateKey} == MergedWith(u, s) - {ResolvedStateKey}
    ensures ResolvedStateKey in Final(ls, u, s)
  {
    ReachingAgrees(ls, u, s);
    var t := Final(ls, u, s);
    var m := MergedWith(u, s);
    assert (t - {ResolvedStateKey}).Keys == (m - {ResolvedStateKey}).Keys;
  }

  /** Passing `a` and then `b` is passing `a + b`. */
  lemma {:induction false} ReachingAppend(a: seq<Layer>, b: seq<Layer>, u: Update, s: State)
    ensures Reaching(a + b, u, s) == Reaching(b, Reaching(a, u, s), s)
    decreases |a|
  {
    if a == [] {
      assert a + b == b;
    } else {
      assert (a + b)[1..] == a[1..] + b;
      ReachingAppend(a[1..], b, Inward(a[0], u, s), s);
    }
  }

  /** What reaches the vanilla `set` depends only on what the original
      update resolves to, not on whether it was a function. */
  lemma {:induction false} ReachingDependsOnResolved(ls: seq<Layer>, u: Update, v: Update, s: State)
    requires Resolve(u, s) == Resolve(v, s)
    ensures Resolve(Reaching(ls, u, s), s) == Resolve(Reaching(ls, v, s), s)
    decreases |ls|
  {
    if ls != [] {
      assert Resolve(Inward(ls[0], u, s), s) == Resolve(Inward(ls[0], v, s), s);
      ReachingDependsOnResolved(ls[1..], Inward(ls[0], u, s), Inward(ls[0], v, s), s);
    }
  }

  /** A logger inserted anywhere in a chain leaves the store state after
      every update exactly as it is without it. */
  lemma LoggerTransparent(a: seq<Layer>, b: seq<Layer>, o: Option<LoggerOptions>, u: Update, s: State)
    ensures Final(a + [LoggerLayer(o)] + b, u, s) == Final(a + b, u, s)
  {
    var w := Reaching(a, u, s);
    ReachingAppend(a + [LoggerLayer(o)], b, u, s);
    ReachingAppend(a, [LoggerLayer(o)], u, s);
    ReachingAppend(a, b, u, s);
    assert Reaching([LoggerLayer(o)], w, s) == Literal(Resolve(w, s));
    ReachingDependsOnResolved(b, Literal(Resolve(w, s)), w, s);
  }

  /** A disabled devtools inserted anywhere in a chain changes nothing: the
      update passes it untouched and its history stays as it was. */
  lemma DisabledDevtoolsTransparent(a: seq<Layer>, b: seq<Layer>, c: Config, h: seq<string>, u: Update, s: State, json: Json)
    requires !c.enabled
    ensures Final(a + [DevtoolsLayer(c, h)] + b, u, s) == Final(a + b, u, s)
    ensures Traced(DevtoolsLayer(c, h), Reaching(a, u, s), s, json) == DevtoolsLayer(c, h)
  {
    SkipsForward(a, b, DevtoolsLayer(c, h), u, s);
  }

  /** A layer that hands its update on untouched can be dropped from a chain
      without changing what reaches the vanilla `set`. */
  lemma SkipsForward(a: seq<Layer>, b: seq<Layer>, d: Layer, u: Update, s: State)
    requires Forwards(d)
    ensures Reaching(a + [d] + b, u, s) == Reaching(a + b, u, s)
  {
    var w := Reaching(a, u, s);
    ReachingAppend(a + [d], b, u, s);
    ReachingAppend(a, [d], u, s);
    ReachingAppend(a, b, u, s);
    assert [d][1..] == [];
    assert Reaching([d], w, s) == w;
  }

  /** The layer at position `i` sees the update that passed the layers
      before it. */
  lemma {:induction false} TracedAt(ls: seq<Layer>, u: Update, s: State, json: Json, i: nat)
    requires i < |ls|
    ensures TracedAll(ls, u, s, json)[i] == Traced(ls[i], Reaching(ls[..i], u, s), s, json)
    decreases i
  {
    if i > 0 {
      var v := Inward(ls[0], u, s);
      TracedAt(ls[1..], v, s, json, i - 1);
      assert TracedAll(ls, u, s, json)[i] == TracedAll(ls[1..], v, s, json)[i - 1];
      var prefix := ls[..i];
      assert prefix[0] == ls[0] && prefix[1..] == ls[1..][..i - 1];
      assert Reaching(prefix, u, s) == Reaching(ls[1..][..i - 1], v, s);
    }
  }

  /** Every trace entry a devtools layer records shows a state whose data
      fields are those the store ends with. */
  lemma TraceShowsFinalState(ls: seq<Layer>, u: Update, s: State, i: nat)
    requires i < |ls|
    ensures MergedWith(Reaching(ls[..i], u, s), s) - {ResolvedStateKey} == Final(ls, u, s) - {ResolvedStateKey}
  {
    ReachingAgrees(ls[..i], u, s);
    DataFieldsAgree(ls, u, s);
  }

  /** The state a persist layer at position `i` writes is the merged update
      (data fields as in the final store state), plus whatever
      `resolvedState` the store held before. */
  lemma PersistWritesMerged(ls: seq<Layer>, u: Update, s: State, i: nat)
    requires i < |ls| && ls[i].PersistLayer?
    ensures Inward(ls[i], Reaching(ls[..i], u, s), s) == Literal(Obj(MergedWith(u, s)))
  {
    ReachingAgrees(ls[..i], u, s);
  }

  /** A partial carrying a `resolvedState` field keeps carrying that value
      through every layer. */
  lemma {:induction false} ResolvedStateCarried(ls: seq<Layer>, v: Update, s: State, x: Value)
    requires ResolvedStateKey in Spread(Resolve(v, s)) && Spread(Resolve(v, s))[ResolvedStateKey] == x
    ensures var r := Spread(Resolve(Reaching(ls, v, s), s)); ResolvedStateKey in r && r[ResolvedStateKey] == x
    decreases |ls|
  {
    if ls != [] {
      ResolvedStateCarried(ls[1..], Inward(ls[0], v, s), s, x);
    }
  }

  /** Behind a persist layer or an enabled devtools, `resolvedState` is
      frozen once the store holds it: the merged state handed inward
      carries the old field, so the vanilla `set` keeps it, unless the
      update itself sets a field of that name. */
  lemma ResolvedStateFrozen(ls: seq<Layer>, u: Update, s: State, i: nat)
    requires i < |ls| && Absorbs(ls[i]) && ResolvedStateKey in s
    ensures Final(ls, u, s)[ResolvedStateKey] == MergedWith(u, s)[ResolvedStateKey]
    ensures ResolvedStateKey !in Spread(Resolve(u, s)) ==> Final(ls, u, s)[ResolvedStateKey] == s[ResolvedStateKey]
  {
    var w := Reaching(ls[..i], u, s);
    ReachingAgrees(ls[..i], u, s);
    var rest := ls[i + 1..];
    assert ls == ls[..i] + ([ls[i]] + rest);
    ReachingAppend(ls[..i], [ls[i]] + rest, u, s);
    assert ([ls[i]] + rest)[1..] == rest;
    ResolvedStateCarried(rest, Inward(ls[i], w, s), s, MergedWith(u, s)[ResolvedStateKey]);
  }

  /** Through layers none of which hands the merged state inward, the
      vanilla `set` sees the caller's resolved partial, so `resolvedState`
      holds that partial after every update when the partial has no
      `resolvedState` field of its own. */
  lemma {:induction false} ResolvedStateTracks(ls: seq<Layer>, u: Update, s: State)
    requires forall i :: 0 <= i < |ls| ==> !Absorbs(ls[i])
    ensures Resolve(Reaching(ls, u, s), s) == Resolve(u, s)
    ensures ResolvedStateKey !in Spread(Resolve(u, s)) ==> Final(ls, u, s)[ResolvedStateKey] == Resolve(u, s)
    decreases |ls|
  {
    if ls != [] {
      assert forall i :: 0 <= i < |ls[1..]| ==> ls[1..][i] == ls[i + 1];
      ResolvedStateTracks(ls[1..], Inward(ls[0], u, s), s);
    }
  }

  /** A chain without a storage writes nothing. */
  lemma {:induction false} NoStorageNoWrite(ls: seq<Layer>, u: Update, s: State, final: State, json: Json,
                                            failing: set<StorageType>, start: Unwound)
    requires forall i :: 0 <= i < |ls| && ls[i].PersistLayer? ==> ls[i].storage.None?
    ensures Unwind(ls, u, s, final, json, failing, start).entries == start.entries
    decreases |ls|
  {
    if ls != [] {
      NoStorageNoWrite(ls[1..], Inward(ls[0], u, s), s, final, json, failing, start);
    }
  }

  /** Once a layer has failed, the layers before it in the chain do nothing
      more: an error leaves the unwinding as it was. */
  lemma {:induction false} FailureStopsUnwinding(ls: seq<Layer>, u: Update, s: State, final: State, json: Json,
                                                 failing: set<StorageType>, start: Unwound)
    requires start.outcome.Fail?
    ensures Unwind(ls, u, s, final, json, failing, start) == start
    decreases |ls|
  {
    if ls != [] {
      FailureStopsUnwinding(ls[1..], Inward(ls[0], u, s), s, final, json, failing, start);
    }
  }
}
