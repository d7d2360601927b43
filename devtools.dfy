/** The devtools middleware's own logic (src/core/middleware/devtools.ts):
    its option defaults, the text of one trace entry, and the bounded
    first-in-first-out trace history. How it wraps `set` is in module Layers. */
module Devtools {
  import opened Results
  import opened Values

  /** The options record; a missing field is None (src/types/index.ts:36-43). */
  datatype DevtoolsOptions = DevtoolsOptions(
    name: Option<string>,
    anonymousActionType: Option<string>,
    serialize: Option<bool>,
    enabled: Option<bool>,
    trace: Option<bool>,
    traceLimit: Option<int>)

  /** The settings in force once the defaults are applied. */
  datatype Config = Config(
    name: string,
    actionType: string,
    serialize: bool,
    enabled: bool,
    trace: bool,
    traceLimit: int)

  const DefaultName := "zustandStore"
  const DefaultActionType := "STATE_UPDATE"
  const DefaultTraceLimit := 10

  /** `s || fallback` on an optional string. */
  function OrString(s: Option<string>, fallback: string): (r: string)
    ensures s.Some? && s.value != "" ==> r == s.value
    ensures s.None? || s.value == "" ==> r == fallback
  {
    if s.Some? && s.value != "" then s.value else fallback
  }

  /** `b !== undefined ? b : fallback`. */
  function OrBool(b: Option<bool>, fallback: bool): (r: bool)
    ensures b.Some? ==> r == b.value
    ensures b.None? ==> r == fallback
  {
    if b.Some? then b.value else fallback
  }

  /** The defaults: `||` replaces a missing or empty name and action type and
      a missing or zero trace limit; the flags default only when missing. */
  function Defaults(o: DevtoolsOptions): (c: Config)
    ensures c.name != "" && c.actionType != "" && c.traceLimit != 0
    ensures o.name.Some? && o.name.value != "" ==> c.name == o.name.value
    ensures o.name.None? || o.name.value == "" ==> c.name == DefaultName
    ensures o.anonymousActionType.Some? && o.anonymousActionType.value != "" ==> c.actionType == o.anonymousActionType.value
    ensures o.anonymousActionType.None? || o.anonymousActionType.value == "" ==> c.actionType == DefaultActionType
    ensures c.serialize == (o.serialize.None? || o.serialize.value)
    ensures c.enabled == (o.enabled.None? || o.enabled.value)
    ensures c.trace == (o.trace.Some? && o.trace.value)
    ensures o.traceLimit.Some? && o.traceLimit.value != 0 ==> c.traceLimit == o.traceLimit.value
    ensures o.traceLimit.None? || o.traceLimit.value == 0 ==> c.traceLimit == DefaultTraceLimit
  {
    Config(
      OrString(o.name, DefaultName),
      OrString(o.anonymousActionType, DefaultActionType),
      OrBool(o.serialize, true),
      OrBool(o.enabled, true),
      OrBool(o.trace, false),
      if o.traceLimit.Some? && o.traceLimit.value != 0 then o.traceLimit.value else DefaultTraceLimit)
  }

  /** An options record with nothing set gives every documented default. */
  lemma EmptyOptionsDefaults()
    ensures Defaults(DevtoolsOptions(None, None, None, None, None, None))
      == Config(DefaultName, DefaultActionType, true, true, false, DefaultTraceLimit)
  {
  }

  function EntryPrefix(c: Config): string {
    "Action: " + c.actionType + " - State: "
  }

  /** The state as it is interpolated into the entry: its JSON when
      serializing, otherwise an object's default string form. */
  function StateToLog(c: Config, json: Json, merged: State): (logged: string)
    ensures c.serialize && RoundTrips(json, Obj(merged)) ==> json.parse(logged) == Some(Obj(merged))
    ensures !c.serialize ==> logged == "[object Object]"
  {
    if c.serialize then json.stringify(Obj(merged)) else "[object Object]"
  }

  /** One trace entry for an update whose merged state is `merged`. */
  function Entry(c: Config, json: Json, merged: State): (e: string)
    ensures EntryPrefix(c) <= e
    ensures e[|EntryPrefix(c)|..] == StateToLog(c, json, merged)
  {
    EntryPrefix(c) + StateToLog(c, json, merged)
  }

  /** A serializing devtools writes entries from which the merged state can
      be read back, when JSON reads back what it wrote for it. */
  lemma EntryDeterminesState(c: Config, json: Json, m1: State, m2: State)
    requires c.serialize && RoundTrips(json, Obj(m1)) && RoundTrips(json, Obj(m2))
    requires Entry(c, json, m1) == Entry(c, json, m2)
    ensures m1 == m2
  {
    var n := |EntryPrefix(c)|;
    assert json.stringify(Obj(m1)) == Entry(c, json, m1)[n..];
    assert json.stringify(Obj(m2)) == Entry(c, json, m2)[n..];
    assert Some(Obj(m1)) == json.parse(json.stringify(Obj(m1)));
  }

  /** The most entries a history holds under a limit; a limit below one
      still keeps the entry just pushed. */
  function Capacity(limit: int): (n: nat)
    ensures n >= 1
    ensures limit >= 1 ==> n == limit
  {
    if limit >= 1 then limit else 1
  }

  /** One traced update: when the history has reached the limit the oldest
      entry is shifted out (a no-op on an empty history), then the new
      entry is pushed. */
  function Record(h: seq<string>, e: string, limit: int): (r: seq<string>)
    ensures |r| >= 1 && r[|r| - 1] == e
    ensures r[..|r| - 1] == h || (h != [] && r[..|r| - 1] == h[1..])
    ensures |h| <= Capacity(limit) ==> |r| <= Capacity(limit)
    ensures |h| < limit ==> r == h + [e]
  {
    if |h| >= limit && |h| > 0 then h[1..] + [e] else h + [e]
  }

  /** The history after tracing the entries `es` in order. */
  function RecordAll(h: seq<string>, es: seq<string>, limit: int): seq<string>
    decreases |es|
  {
    if es == [] then h else RecordAll(Record(h, es[0], limit), es[1..], limit)
  }

  /** How many of the oldest entries fall out of a window of `limit`. */
  function Evicted(n: nat, limit: nat): nat {
    if n > limit then n - limit else 0
  }

  /** One traced update keeps the latest `limit` entries. */
  lemma RecordWindow(h: seq<string>, e: string, limit: int)
    requires limit >= 1 && |h| <= limit
    ensures Record(h, e, limit) == (h + [e])[Evicted(|h| + 1, limit)..]
  {
    if |h| == limit {
      assert (h + [e])[1..] == h[1..] + [e];
    } else {
      assert (h + [e])[0..] == h + [e];
    }
  }

  /** Evicting after one entry and then after the rest is evicting after
      all of them. */
  lemma EvictedStep(h: nat, n: nat, limit: nat)
    requires 1 <= limit && h <= limit && n >= 1
    ensures Evicted(h + 1, limit) + Evicted(h + 1 - Evicted(h + 1, limit) + n - 1, limit) == Evicted(h + n, limit)
  {
  }

  /** Tracing the first of `es` leaves the window of `h + es` that starts
      after the entries it evicted. */
  lemma WindowStep(h: seq<string>, es: seq<string>, limit: int)
    requires limit >= 1 && |h| <= limit && es != []
    ensures Record(h, es[0], limit) + es[1..] == (h + es)[Evicted(|h| + 1, limit)..]
    ensures |Record(h, es[0], limit)| == |h| + 1 - Evicted(|h| + 1, limit)
  {
    RecordWindow(h, es[0], limit);
    assert h + es == (h + [es[0]]) + es[1..];
  }

  lemma DropTwice(all: seq<string>, k: nat, j: nat)
    requires k + j <= |all|
    ensures all[k..][j..] == all[k + j..]
  {
  }

  /** For a limit of at least one, the history is always the latest `limit`
      entries in the order they were traced, the oldest evicted first. */
  lemma {:induction false} RecentWindow(h: seq<string>, es: seq<string>, limit: int)
    requires limit >= 1 && |h| <= limit
    ensures RecordAll(h, es, limit) == (h + es)[Evicted(|h| + |es|, limit)..]
    decreases |es|
  {
    if es == [] {
      assert (h + es)[0..] == h;
    } else {
      RecentWindow(Record(h, es[0], limit), es[1..], limit);
      WindowCombine(h, es, limit);
    }
  }

  /** The inductive step of `RecentWindow`: the window after the first entry,
      extended by the rest, is the window of all of them. */
  lemma WindowCombine(h: seq<string>, es: seq<string>, limit: int)
    requires limit >= 1 && |h| <= limit && es != []
    requires var h' := Record(h, es[0], limit);
      RecordAll(h', es[1..], limit) == (h' + es[1..])[Evicted(|h'| + |es[1..]|, limit)..]
    ensures RecordAll(h, es, limit) == (h + es)[Evicted(|h| + |es|, limit)..]
  {
    var h' := Record(h, es[0], limit);
    var k := Evicted(|h| + 1, limit);
    var j := Evicted(|h'| + |es[1..]|, limit);
    WindowStep(h, es, limit);
    EvictedStep(|h|, |es|, limit);
    calc {
      RecordAll(h, es, limit);
      RecordAll(h', es[1..], limit);
      (h' + es[1..])[j..];
      (h + es)[k..][j..];
      { DropTwice(h + es, k, j); }
      (h + es)[k + j..];
    }
  }

  /** Starting from an empty history, the history never exceeds the limit. */
  lemma HistoryBounded(es: seq<string>, limit: int)
    requires limit >= 1
    ensures |RecordAll([], es, limit)| <= limit
    ensures |es| >= limit ==> |RecordAll([], es, limit)| == limit
  {
    RecentWindow([], es, limit);
  }

  /** A negative limit keeps only the latest entry. */
  lemma {:induction false} NegativeLimitKeepsLatest(h: seq<string>, es: seq<string>, limit: int)
    requires limit < 1 && |h| <= 1 && es != []
    ensures RecordAll(h, es, limit) == [es[|es| - 1]]
    decreases |es|
  {
    var h' := Record(h, es[0], limit);
    assert h' == [es[0]];
    if |es| > 1 {
      NegativeLimitKeepsLatest(h', es[1..], limit);
    }
  }
}
