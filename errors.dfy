/** The library's error class (src/utils/error.ts) and the error codes it is
    raised with (src/types/index.ts:4-17). */
module Errors {
  import opened Results
  import opened Values

  datatype ErrorCode =
    | SetStateError
    | SendEventError
    | LoadStateError
    | SaveStateError
    | UnsupportedStorageType
    | GetStateError
    | ValidateStateError
    | RemoveStateError
    | PersistLoadError
    | PersistSaveError
    | OptionsRequired
    | StoreCreatorRequired

  /** The string each enum member stands for. */
  function CodeString(c: ErrorCode): string {
    match c
    case SetStateError => "SET_STATE_ERROR"
    case SendEventError => "SEND_EVENT_ERROR"
    case LoadStateError => "LOAD_STATE_ERROR"
    case SaveStateError => "SAVE_STATE_ERROR"
    case UnsupportedStorageType => "UNSUPPORTED_STORAGE_TYPE"
    case GetStateError => "GET_STATE_ERROR"
    case ValidateStateError => "VALIDATE_STATE_ERROR"
    case RemoveStateError => "REMOVE_STATE_ERROR"
    case PersistLoadError => "PERSIST_LOAD_ERROR"
    case PersistSaveError => "PERSIST_SAVE_ERROR"
    case OptionsRequired => "OPTIONS_REQUIRED"
    case StoreCreatorRequired => "STORE_CREATOR_REQUIRED"
  }

  /** Distinct codes have distinct strings, so a code string names one code. */
  lemma CodeStringInjective(c: ErrorCode, d: ErrorCode)
    requires CodeString(c) == CodeString(d)
    ensures c == d
  {
  }

  /** A ChuBeiError: its name, the Error message, a code and optional
      structured metadata. */
  datatype ChuBeiError = ChuBeiError(
    name: string,
    message: string,
    code: string,
    metadata: Option<map<string, Value>>)

  const ErrorName := "ChuBeiError"

  /** `new ChuBeiError(message, code, metadata)`: the three arguments are kept
      as given and the name is fixed. */
  function NewChuBeiError(message: string, code: string, metadata: Option<map<string, Value>>): (e: ChuBeiError)
    ensures e.name == ErrorName
    ensures e.message == message && e.code == code && e.metadata == metadata
  {
    ChuBeiError(ErrorName, message, code, metadata)
  }

  /** The first line of `toString()`: `${name} [${code}]: ${message}`. */
  function Header(e: ChuBeiError): string {
    e.name + " [" + e.code + "]: " + e.message
  }

  /** `toString()`: the header, followed by the indented JSON of the metadata
      when there is any (an object is truthy even when it is empty). */
  function ToString(e: ChuBeiError, json: Json): (s: string)
    ensures Header(e) <= s
    ensures s == Header(e) <==> e.metadata.None?
    ensures e.metadata.Some? ==> s[|Header(e)|..] == "\nMetadata: " + json.pretty(Obj(e.metadata.value))
  {
    if e.metadata.Some? then
      Header(e) + "\nMetadata: " + json.pretty(Obj(e.metadata.value))
    else
      Header(e)
  }

  /** The position of the first `c` in `s`, or `|s|` when there is none. */
  function IndexOf(s: string, c: char): (i: nat)
    ensures i <= |s|
    ensures forall j :: 0 <= j < i ==> s[j] != c
    ensures i < |s| ==> s[i] == c
  {
    if s == [] then 0 else if s[0] == c then 0 else 1 + IndexOf(s[1..], c)
  }

  /** Reads the code and message back out of a string `toString()` produced
      for an error without metadata. */
  function ReadHeader(s: string): Option<(string, string)> {
    var prefix := ErrorName + " [";
    if !(prefix <= s) then None
    else
      var rest := s[|prefix|..];
      var j := IndexOf(rest, ']');
      if j + 3 <= |rest| && rest[j..j + 3] == "]: " then Some((rest[..j], rest[j + 3..]))
      else None
  }

  lemma {:induction false} IndexOfAfterFree(code: string, tail: string)
    requires ']' !in code
    requires tail != [] && tail[0] == ']'
    ensures IndexOf(code + tail, ']') == |code|
  {
    if code != [] {
      assert (code + tail)[1..] == code[1..] + tail;
      IndexOfAfterFree(code[1..], tail);
    }
  }

  /** `toString()` loses nothing: for an error without metadata whose code has
      no `]`, the code and message can be read back. */
  lemma ToStringReadsBack(e: ChuBeiError, json: Json)
    requires e.name == ErrorName && e.metadata.None?
    requires ']' !in e.code
    ensures ReadHeader(ToString(e, json)) == Some((e.code, e.message))
  {
    var s := ToString(e, json);
    var prefix := ErrorName + " [";
    assert s == prefix + (e.code + "]: " + e.message);
    var rest := s[|prefix|..];
    assert rest == e.code + ("]: " + e.message);
    IndexOfAfterFree(e.code, "]: " + e.message);
  }

  /** What a caller sees thrown: a ChuBeiError, or a TypeError raised by the
      JavaScript runtime itself. */
  datatype Thrown = ChuBei(error: ChuBeiError) | TypeError(reason: string)

  /** The error `createStore` and `create` throw for a bad creator. The call
      sites pass the code first and the prose second, so, against the
      constructor's parameter order, the message is the code string and the
      code is the prose. */
  function StoreCreatorRequiredError(): (e: ChuBeiError)
    ensures e.name == ErrorName
    ensures e.message == CodeString(StoreCreatorRequired)
    ensures e.code == StoreCreatorProse && e.code != CodeString(StoreCreatorRequired)
    ensures e.metadata.None?
  {
    NewChuBeiError(CodeString(StoreCreatorRequired), StoreCreatorProse, None)
  }

  /** The sentence both factories pass alongside the code. */
  const StoreCreatorProse := "StoreCreator function is required with setState and getState parameters"

}
