/** Store creators and the middleware that wrap them (src/types/index.ts:24-30):
    a creator is the user's `(set, get) => state` function or a middleware
    applied to an inner creator. This module models what happens when the
    chain is called at construction: the factories' arity check and each
    middleware's synchronous set-up. */
module Creators {
  import opened Results
  import opened Values
  import opened Errors
  import opened Devtools
  import opened Persist
  import opened Logger

  /** The argument handed to a store factory. `NotAFunction` is any value
      that is not a function; `Plain` is a user creator with its declared
      parameter count and the initial state it returns. */
  datatype Creator =
    | NotAFunction
    | Plain(arity: nat, initial: State)
    | WithDevtools(inner: Creator, devtoolsOptions: Option<DevtoolsOptions>)
    | WithPersist(inner: Creator, persistOptions: Option<PersistOptions>)
    | WithLogger(inner: Creator, loggerOptions: Option<LoggerOptions>)

  /** The factories' check `typeof c === "function" && c.length === 2`.
      Every middleware returns a two-parameter function, so only a plain
      creator can fail it by its arity. */
  predicate Accepted(c: Creator)
    ensures c.WithDevtools? || c.WithPersist? || c.WithLogger? ==> Accepted(c)
    ensures c.Plain? ==> (Accepted(c) <==> c.arity == 2)
    ensures c.NotAFunction? ==> !Accepted(c)
  {
    match c
    case NotAFunction => false
    case Plain(arity, _) => arity == 2
    case _ => true
  }

  /** The creator at the bottom of the chain. */
  function Innermost(c: Creator): (r: Creator)
    ensures !r.WithDevtools? && !r.WithPersist? && !r.WithLogger?
  {
    match c
    case WithDevtools(inner, _) => Innermost(inner)
    case WithPersist(inner, _) => Innermost(inner)
    case WithLogger(inner, _) => Innermost(inner)
    case _ => c
  }

  /** How many middleware wrap the innermost creator. */
  function Depth(c: Creator): nat {
    match c
    case WithDevtools(inner, _) => Depth(inner) + 1
    case WithPersist(inner, _) => Depth(inner) + 1
    case WithLogger(inner, _) => Depth(inner) + 1
    case _ => 0
  }

  /** A middleware as its creator call leaves it, before a storage is opened. */
  datatype Wrapper =
    | DevtoolsWrapper(config: Config)
    | PersistWrapper(persistOptions: Option<PersistOptions>)
    | LoggerWrapper(loggerOptions: Option<LoggerOptions>)

  /** Calling the chain: each middleware sets itself up and then calls the
      creator it wraps, so the outermost middleware is the last layer an
      update passes and its errors come first. Devtools destructures its
      options before its own null check, so missing options are a
      TypeError, never OPTIONS_REQUIRED; an inner creator that is not a
      function is a TypeError when called; the inner creator's arity is
      never checked. */
  function Plan(c: Creator): (r: Result<(seq<Wrapper>, State), Thrown>)
    ensures r.Err? ==> r.error.TypeError?
    ensures Innermost(c).NotAFunction? ==> r.Err?
    ensures r.Ok? ==> Innermost(c).Plain? && r.value.1 == Innermost(c).initial && |r.value.0| == Depth(c)
    ensures c.WithDevtools? && c.devtoolsOptions.Some? && r.Ok? ==>
      r.value.0[|r.value.0| - 1] == DevtoolsWrapper(Defaults(c.devtoolsOptions.value))
    ensures c.WithPersist? && r.Ok? ==> r.value.0[|r.value.0| - 1] == PersistWrapper(c.persistOptions)
    ensures c.WithLogger? && r.Ok? ==> r.value.0[|r.value.0| - 1] == LoggerWrapper(c.loggerOptions)
  {
    match c
    case NotAFunction => Err(TypeError("store is not a function"))
    case Plain(_, initial) => Ok(([], initial))
    case WithDevtools(inner, o) =>
      if o.None? then Err(TypeError("Cannot destructure 'options' as it is undefined."))
      else Wrap(Plan(inner), DevtoolsWrapper(Defaults(o.value)))
    case WithPersist(inner, o) => Wrap(Plan(inner), PersistWrapper(o))
    case WithLogger(inner, o) => Wrap(Plan(inner), LoggerWrapper(o))
  }

  function Wrap(r: Result<(seq<Wrapper>, State), Thrown>, w: Wrapper): Result<(seq<Wrapper>, State), Thrown> {
    if r.Err? then r else Ok((r.value.0 + [w], r.value.1))
  }

  /** A devtools without options anywhere in the chain makes the chain
      throw a TypeError; the OPTIONS_REQUIRED error is never raised. */
  lemma {:induction false} MissingDevtoolsOptionsThrow(c: Creator)
    requires HasBareDevtools(c)
    ensures Plan(c).Err? && Plan(c).error.TypeError?
  {
    match c
    case WithDevtools(inner, o) =>
      if o.Some? {
        MissingDevtoolsOptionsThrow(inner);
      }
    case WithPersist(inner, _) =>
      MissingDevtoolsOptionsThrow(inner);
    case WithLogger(inner, _) =>
      MissingDevtoolsOptionsThrow(inner);
  }

  predicate HasBareDevtools(c: Creator) {
    match c
    case WithDevtools(inner, o) => o.None? || HasBareDevtools(inner)
    case WithPersist(inner, _) => HasBareDevtools(inner)
    case WithLogger(inner, _) => HasBareDevtools(inner)
    case _ => false
  }
  /** The chain can be called exactly when its innermost creator is a
      function and every devtools in it has options. */
  lemma {:induction false} PlanSucceedsIff(c: Creator)
    ensures Plan(c).Ok? <==> Innermost(c).Plain? && !HasBareDevtools(c)
  {
    match c
    case WithDevtools(inner, o) =>
      PlanSucceedsIff(inner);
    case WithPersist(inner, _) =>
      PlanSucceedsIff(inner);
    case WithLogger(inner, _) =>
      PlanSucceedsIff(inner);
    case _ =>
  }
}
