/** The values a store holds, the shallow merge every layer uses, and the two
    forms of a partial update (src/types/index.ts:19-24). */
module Values {
  import opened Results

  /** A JavaScript value as it can appear in a state field. Objects and
      arrays are compared by content; see README for how this relates to
      the source's reference comparison. */
  datatype Value =
    | Undefined
    | Null
    | Bool(b: bool)
    | Num(n: int)
    | Str(s: string)
    | Arr(items: seq<Value>)
    | Obj(fields: map<string, Value>)

  /** A store's state: a flat record from field name to value. */
  type State = map<string, Value>

  /** JavaScript truthiness (`if (v)`, `v || default`). */
  predicate Truthy(v: Value) {
    match v
    case Undefined => false
    case Null => false
    case Bool(b) => b
    case Num(n) => n != 0
    case Str(s) => s != ""
    case Arr(_) => true
    case Obj(_) => true
  }

  /** The own fields that object spread `{ ...v }` copies out of a partial
      update: an object's fields, nothing for a primitive. */
  function Spread(v: Value): map<string, Value> {
    if v.Obj? then v.fields else map[]
  }

  /** Shallow merge `{ ...s, ...p }`: every field of the partial replaces the
      field of the same name; every other field is kept as it was. */
  function Merge(s: State, p: Value): (r: State)
    ensures r.Keys == s.Keys + Spread(p).Keys
    ensures forall k :: k in Spread(p) ==> r[k] == Spread(p)[k]
    ensures forall k :: k in s && k !in Spread(p) ==> r[k] == s[k]
  {
    s + Spread(p)
  }

  /** Merging the same partial twice is the same as merging it once. */
  lemma MergeIdempotent(s: State, p: Value)
    ensures Merge(Merge(s, p), p) == Merge(s, p)
  {
  }

  /** Merging an object that holds every field of the state into that
      state gives exactly that object. */
  lemma MergeOfSuperset(s: State, m: State)
    requires s.Keys <= m.Keys
    ensures Merge(s, Obj(m)) == m
  {
  }

  /** A partial update: a literal partial object, or a function from the
      current state to one. */
  datatype Update =
    | Literal(partial: Value)
    | Functional(f: State -> Value)

  /** `typeof u === "function" ? u(s) : u`. */
  function Resolve(u: Update, s: State): (r: Value)
    ensures u.Literal? ==> r == u.partial
    ensures u.Functional? ==> r == u.f(s)
  {
    match u
    case Literal(p) => p
    case Functional(f) => f(s)
  }

  /** Resolving a literal that holds an already resolved update gives the
      same partial, whatever state it is resolved against. */
  lemma ResolveResolved(u: Update, s: State, t: State)
    ensures Resolve(Literal(Resolve(u, s)), t) == Resolve(u, s)
  {
  }

  /** The host's JSON functions, which the model does not define:
      `stringify` is `JSON.stringify(v)`, `pretty` is `JSON.stringify(v, null, 2)`
      and `parse` is `JSON.parse` (None when it throws). */
  datatype Json = Json(stringify: Value -> string, pretty: Value -> string, parse: string -> Option<Value>)

  /** The codec reads back what it wrote for this value, as a non-empty
      string. */
  predicate RoundTrips(json: Json, v: Value) {
    json.parse(json.stringify(v)) == Some(v) && json.stringify(v) != ""
  }
}
