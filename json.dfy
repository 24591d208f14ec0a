/** Parsed JSON values as the client receives them from `r.json()`, the
    exceptions the client raises, and the few Python operations the client
    applies to JSON values: truth testing, `value[key]` and `for item in value`. */
module JsonValues {
  import opened Wrappers

  /** A JSON object keeps its keys in insertion order, as a Python dict does.
      Numbers are integers only. */
  datatype Json =
    | JNull
    | JBool(b: bool)
    | JNum(n: int)
    | JStr(s: string)
    | JArr(items: seq<Json>)
    | JObj(fields: seq<(string, Json)>)

  type Fields = seq<(string, Json)>

  /** The exceptions that can escape the client: its own exception classes
      and the Python built-ins that a malformed payload provokes. */
  datatype Failure =
    | TokenError
    | ResourceNotFound
    | AgentSymbolTaken(callsign: string)
    | CouldNotRegisterAgent
    | ShipSymbolNotDefined
    | KeyError(key: Json)
    | TypeError
    | AttributeError
    | IndexError

  /** Python truth testing of a JSON value (`if symbol:`). */
  predicate Truthy(j: Json) {
    match j
    case JNull => false
    case JBool(b) => b
    case JNum(n) => n != 0
    case JStr(s) => s != []
    case JArr(items) => items != []
    case JObj(fields) => fields != []
  }

  /** The last entry of `fields` whose key is one of `keys`. */
  function LastEntry(fields: Fields, keys: set<string>): Option<(string, Json)>
    decreases |fields|
  {
    if fields == [] then None
    else if fields[|fields| - 1].0 in keys then Some(fields[|fields| - 1])
    else LastEntry(fields[..|fields| - 1], keys)
  }

  /** The value an attribute holds once every entry whose key writes it has
      been applied in order: the value of the last such entry. */
  function Written(fields: Fields, keys: set<string>): Option<Json> {
    match LastEntry(fields, keys)
    case None => None
    case Some(e) => Some(e.1)
  }

  /** `LastEntry` finds the entry with a key in `keys` that no later entry
      overrides, and finds nothing exactly when no key is in `keys`. */
  lemma {:induction false} LastEntryIsLastWrite(fields: Fields, keys: set<string>)
    ensures LastEntry(fields, keys).None? <==> forall j :: 0 <= j < |fields| ==> fields[j].0 !in keys
    ensures LastEntry(fields, keys).Some? ==>
      exists i :: 0 <= i < |fields| && fields[i] == LastEntry(fields, keys).value && fields[i].0 in keys &&
                  forall j :: i < j < |fields| ==> fields[j].0 !in keys
    decreases |fields|
  {
    if fields != [] {
      var p := fields[..|fields| - 1];
      LastEntryIsLastWrite(p, keys);
      if fields[|fields| - 1].0 !in keys {
        forall j | 0 <= j < |p| ensures p[j] == fields[j] { }
        if LastEntry(p, keys).Some? {
          var i :| 0 <= i < |p| && p[i] == LastEntry(p, keys).value && p[i].0 in keys &&
                   forall j :: i < j < |p| ==> p[j].0 !in keys;
          assert fields[i] == p[i];
        }
      }
    }
  }

  /** An entry with a key in `keys` that no later entry overrides is the
      one whose value the attribute keeps. */
  lemma {:induction false} LastWriteWins(fields: Fields, keys: set<string>, i: nat)
    requires i < |fields| && fields[i].0 in keys
    requires forall j :: i < j < |fields| ==> fields[j].0 !in keys
    ensures LastEntry(fields, keys) == Some(fields[i])
    ensures Written(fields, keys) == Some(fields[i].1)
    decreases |fields|
  {
    if i < |fields| - 1 {
      var p := fields[..|fields| - 1];
      assert fields[|fields| - 1].0 !in keys;
      forall j | i < j < |p| ensures p[j].0 !in keys {
        assert p[j] == fields[j];
      }
      LastWriteWins(p, keys, i);
    }
  }

  /** Some entry of `fields` has a key in `keys`. */
  predicate Mentions(fields: Fields, keys: set<string>) {
    exists j :: 0 <= j < |fields| && fields[j].0 in keys
  }

  /** An attribute is written exactly when some entry's key writes it. */
  lemma WrittenIffMentioned(fields: Fields, keys: set<string>)
    ensures Written(fields, keys).Some? <==> Mentions(fields, keys)
  {
    LastEntryIsLastWrite(fields, keys);
  }

  /** `value[key]`. A dict answers the value stored under `key` (a repeated
      key keeps its last value, as `json.loads` does) or raises KeyError;
      no other JSON value can be subscripted with a string. */
  function Subscript(j: Json, key: string): (r: Result<Json, Failure>)
    ensures !j.JObj? ==> r == Failure(TypeError)
    ensures j.JObj? ==> (r.Success? <==> exists i :: 0 <= i < |j.fields| && j.fields[i].0 == key)
    ensures j.JObj? && r.Failure? ==> r.error == KeyError(JStr(key))
    ensures r.Success? ==> exists i :: 0 <= i < |j.fields| && j.fields[i] == (key, r.value)
  {
    if !j.JObj? then Failure(TypeError)
    else
      LastEntryIsLastWrite(j.fields, {key});
      match Written(j.fields, {key})
      case None => Failure(KeyError(JStr(key)))
      case Some(v) => Success(v)
  }

  /** The items `for item in value` visits: the elements of a list, the keys
      of a dict, the characters of a string. Other values are not iterable. */
  function Iterate(j: Json): (r: Result<seq<Json>, Failure>)
    ensures r.Success? <==> j.JArr? || j.JObj? || j.JStr?
    ensures r.Failure? ==> r.error == TypeError
    ensures j.JArr? ==> r == Success(j.items)
    ensures j.JObj? ==> r.Success? && |r.value| == |j.fields|
    ensures j.JObj? ==> forall i :: 0 <= i < |j.fields| ==> r.value[i] == JStr(j.fields[i].0)
    ensures j.JStr? ==> r.Success? && |r.value| == |j.s|
    ensures j.JStr? ==> forall i :: 0 <= i < |j.s| ==> r.value[i] == JStr([j.s[i]])
  {
    match j
    case JArr(items) => Success(items)
    case JObj(fields) => Success(seq(|fields|, i requires 0 <= i < |fields| => JStr(fields[i].0)))
    case JStr(s) => Success(seq(|s|, i requires 0 <= i < |s| => JStr([s[i]])))
    case _ => Failure(TypeError)
  }
}
