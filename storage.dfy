/** The persistence backend wrapper (src/utils/storage.ts): a key and one of
    three backend kinds fixed at construction; `set`, `get`, `validate` and
    `remove` on that key of that backend, every failure re-raised as a
    ChuBeiError with an operation-specific code. The browser's local storage,
    session storage and cookie jar are one abstract map from (kind, key) to
    the stored string. */
module BrowserStorage {
  import opened Results
  import opened Values
  import opened Errors

  datatype StorageType = LocalStorage | SessionStorage | Cookies

  function TypeName(t: StorageType): string {
    match t
    case LocalStorage => "localStorage"
    case SessionStorage => "sessionStorage"
    case Cookies => "cookies"
  }

  /** The constructor's default for a missing storage type. */
  const DefaultStorageType := "localStorage"

  /** `["localStorage", "sessionStorage", "cookies"].includes(name)`, and
      which kind the name selects. */
  function ParseStorageType(name: string): (r: Option<StorageType>)
    ensures r.Some? <==> name in ["localStorage", "sessionStorage", "cookies"]
    ensures r.Some? ==> TypeName(r.value) == name
  {
    if name == "localStorage" then Some(LocalStorage)
    else if name == "sessionStorage" then Some(SessionStorage)
    else if name == "cookies" then Some(Cookies)
    else None
  }

  /** The constructor's validation of its storage-type argument (missing
      means the default). */
  function CheckStorageType(arg: Option<string>): (r: Result<StorageType, ChuBeiError>)
    ensures arg.None? ==> r == Ok(LocalStorage)
    ensures arg.Some? ==> (r.Ok? <==> arg.value in ["localStorage", "sessionStorage", "cookies"])
    ensures r.Ok? && arg.Some? ==> TypeName(r.value) == arg.value
    ensures r.Err? ==> (arg.Some? && r.error.code == CodeString(UnsupportedStorageType)
      && r.error.metadata == Some(map["storageType" := Str(arg.value)]))
  {
    var name := if arg.Some? then arg.value else DefaultStorageType;
    match ParseStorageType(name)
    case Some(t) => Ok(t)
    case None => Err(NewChuBeiError("Unsupported storage type", CodeString(UnsupportedStorageType),
      Some(map["storageType" := Str(name)])))
  }

  /** One backend's entry for one key. */
  type Slot = (StorageType, string)

  type Entries = map<Slot, string>

  /** The browser's three stores. A kind in `failing` throws on every access
      (storage disabled, quota exceeded, a security error). */
  class Backends {
    var entries: Entries
    var failing: set<StorageType>

    constructor (entries: Entries, failing: set<StorageType>)
      ensures this.entries == entries && this.failing == failing
    {
      this.entries := entries;
      this.failing := failing;
    }
  }

  function Failure(message: string, code: ErrorCode, metadata: map<string, Value>): ChuBeiError {
    NewChuBeiError(message, CodeString(code), Some(metadata))
  }

  /** The entries after `set(v)` and what the call raises. */
  datatype Write = Write(entries: Entries, outcome: Outcome<ChuBeiError>)

  /** `set(v)`: writes the JSON of `v` under the key in the selected backend,
      or raises SET_STATE_ERROR with the value and the kind as metadata. */
  function SetEffect(t: StorageType, key: string, v: Value, json: Json, entries: Entries, failing: set<StorageType>): (w: Write)
    ensures w.outcome.Pass? <==> t !in failing
    ensures w.outcome.Fail? ==> (w.entries == entries && w.outcome.error.code == CodeString(SetStateError)
      && w.outcome.error.message == "Failed to set state"
      && w.outcome.error.metadata == Some(map["state" := v, "storageType" := Str(TypeName(t))]))
    ensures w.outcome.Pass? ==> (t, key) in w.entries && w.entries[(t, key)] == json.stringify(v)
    ensures forall slot :: slot != (t, key) ==>
      (slot in w.entries <==> slot in entries) && (slot in entries ==> w.entries[slot] == entries[slot])
  {
    if t in failing then
      Write(entries, Fail(Failure("Failed to set state", SetStateError,
        map["state" := v, "storageType" := Str(TypeName(t))])))
    else
      Write(entries[(t, key) := json.stringify(v)], Pass)
  }

  /** `getFromLocalStorage` and its siblings: an empty or missing entry reads
      as `null`; otherwise the entry is parsed, and a parse failure throws. */
  function Stored(t: StorageType, key: string, json: Json, entries: Entries): (r: Option<Value>)
    ensures (t, key) !in entries ==> r == Some(Null)
    ensures (t, key) in entries && entries[(t, key)] == "" ==> r == Some(Null)
    ensures forall v :: (t, key) in entries && entries[(t, key)] == json.stringify(v) && RoundTrips(json, v) ==> r == Some(v)
  {
    if (t, key) !in entries || entries[(t, key)] == "" then Some(Null)
    else json.parse(entries[(t, key)])
  }

  /** `get()`: the parsed entry (`null` when there is none), or
      GET_STATE_ERROR when the backend throws or the entry does not parse. */
  function GetResult(t: StorageType, key: string, json: Json, entries: Entries, failing: set<StorageType>): (r: Result<Value, ChuBeiError>)
    ensures r.Err? <==> t in failing || Stored(t, key, json, entries).None?
    ensures r.Err? ==> (r.error.code == CodeString(GetStateError) && r.error.message == "Failed to get state"
      && r.error.metadata == Some(map["storageType" := Str(TypeName(t))]))
    ensures r.Ok? ==> Stored(t, key, json, entries) == Some(r.value)
  {
    var stored := Stored(t, key, json, entries);
    if t in failing || stored.None? then
      Err(Failure("Failed to get state", GetStateError, map["storageType" := Str(TypeName(t))]))
    else
      Ok(stored.value)
  }

  /** `validate()`: whether the entry reads as something other than `null`;
      VALIDATE_STATE_ERROR when the backend throws or the entry does not
      parse. */
  function ValidateResult(t: StorageType, key: string, json: Json, entries: Entries, failing: set<StorageType>): (r: Result<bool, ChuBeiError>)
    ensures r.Err? <==> t in failing || Stored(t, key, json, entries).None?
    ensures r.Err? ==> (r.error.code == CodeString(ValidateStateError) && r.error.message == "Failed to validate state"
      && r.error.metadata == Some(map["storageType" := Str(TypeName(t))]))
    ensures r == Ok(true) <==> (t !in failing && (t, key) in entries && entries[(t, key)] != ""
      && json.parse(entries[(t, key)]).Some? && json.parse(entries[(t, key)]).value != Null)
  {
    var stored := Stored(t, key, json, entries);
    if t in failing || stored.None? then
      Err(Failure("Failed to validate state", ValidateStateError, map["storageType" := Str(TypeName(t))]))
    else
      Ok(stored.value != Null)
  }

  /** `remove()`: deletes the key from the selected backend, or raises
      REMOVE_STATE_ERROR. */
  function RemoveEffect(t: StorageType, key: string, entries: Entries, failing: set<StorageType>): (w: Write)
    ensures w.outcome.Pass? <==> t !in failing
    ensures w.outcome.Fail? ==> (w.entries == entries && w.outcome.error.code == CodeString(RemoveStateError)
      && w.outcome.error.message == "Failed to remove state"
      && w.outcome.error.metadata == Some(map["storageType" := Str(TypeName(t))]))
    ensures w.outcome.Pass? ==> (t, key) !in w.entries
    ensures forall slot :: slot != (t, key) ==>
      (slot in w.entries <==> slot in entries) && (slot in entries ==> w.entries[slot] == entries[slot])
  {
    if t in failing then
      Write(entries, Fail(Failure("Failed to remove state", RemoveStateError, map["storageType" := Str(TypeName(t))])))
    else
      Write(entries - {(t, key)}, Pass)
  }

  /** A value written and read back through a working backend is the value,
      when JSON reads back what it wrote for it. */
  lemma SetThenGet(t: StorageType, key: string, v: Value, json: Json, entries: Entries, failing: set<StorageType>)
    requires t !in failing && RoundTrips(json, v)
    ensures GetResult(t, key, json, SetEffect(t, key, v, json, entries, failing).entries, failing) == Ok(v)
  {
  }

  /** After a successful write of anything but `null`, `validate()` is true. */
  lemma SetThenValidate(t: StorageType, key: string, v: Value, json: Json, entries: Entries, failing: set<StorageType>)
    requires t !in failing && RoundTrips(json, v) && v != Null
    ensures ValidateResult(t, key, json, SetEffect(t, key, v, json, entries, failing).entries, failing) == Ok(true)
  {
  }

  /** After a successful removal, `validate()` is false and `get()` is `null`. */
  lemma RemoveThenValidate(t: StorageType, key: string, json: Json, entries: Entries, failing: set<StorageType>)
    requires t !in failing
    ensures ValidateResult(t, key, json, RemoveEffect(t, key, entries, failing).entries, failing) == Ok(false)
    ensures GetResult(t, key, json, RemoveEffect(t, key, entries, failing).entries, failing) == Ok(Null)
  {
  }

  /** A write under one (kind, key) is invisible to every other (kind, key). */
  lemma WritesAreIsolated(t: StorageType, key: string, u: StorageType, other: string, v: Value,
                          json: Json, entries: Entries, failing: set<StorageType>)
    requires (u, other) != (t, key)
    ensures GetResult(u, other, json, SetEffect(t, key, v, json, entries, failing).entries, failing)
      == GetResult(u, other, json, entries, failing)
  {
    var after := SetEffect(t, key, v, json, entries, failing).entries;
    assert Stored(u, other, json, after) == Stored(u, other, json, entries);
  }

  class Storage {
    const key: string
    const storageType: StorageType
    const backends: Backends

    constructor Make(key: string, storageType: StorageType, backends: Backends)
      ensures this.key == key && this.storageType == storageType && this.backends == backends
    {
      this.key := key;
      this.storageType := storageType;
      this.backends := backends;
    }

    /** `new Storage(key, storageType)`: refuses an unsupported type before
        anything is stored. */
    static method Create(key: string, storageType: Option<string>, backends: Backends)
      returns (r: Result<Storage, ChuBeiError>)
      ensures r.Ok? <==> CheckStorageType(storageType).Ok?
      ensures r.Ok? ==> (fresh(r.value) && r.value.key == key && r.value.backends == backends
        && r.value.storageType == CheckStorageType(storageType).value)
      ensures r.Err? ==> r.error == CheckStorageType(storageType).error
    {
      var checked := CheckStorageType(storageType);
      if checked.Ok? {
        var s := new Storage.Make(key, checked.value, backends);
        r := Ok(s);
      } else {
        r := Err(checked.error);
      }
    }

    method Set(v: Value, json: Json) returns (outcome: Outcome<ChuBeiError>)
      modifies backends
      ensures backends.failing == old(backends.failing)
      ensures Write(backends.entries, outcome)
        == SetEffect(storageType, key, v, json, old(backends.entries), backends.failing)
    {
      var w := SetEffect(storageType, key, v, json, backends.entries, backends.failing);
      backends.entries := w.entries;
      outcome := w.outcome;
    }

    method Get(json: Json) returns (r: Result<Value, ChuBeiError>)
      ensures r == GetResult(storageType, key, json, backends.entries, backends.failing)
    {
      r := GetResult(storageType, key, json, backends.entries, backends.failing);
    }

    method Validate(json: Json) returns (r: Result<bool, ChuBeiError>)
      ensures r == ValidateResult(storageType, key, json, backends.entries, backends.failing)
    {
      r := ValidateResult(storageType, key, json, backends.entries, backends.failing);
    }

    method Remove() returns (outcome: Outcome<ChuBeiError>)
      modifies backends
      ensures backends.failing == old(backends.failing)
      ensures Write(backends.entries, outcome)
        == RemoveEffect(storageType, key, old(backends.entries), backends.failing)
    {
      var w := RemoveEffect(storageType, key, backends.entries, backends.failing);
      backends.entries := w.entries;
      outcome := w.outcome;
    }
  }
}
