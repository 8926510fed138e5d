/**
 * Python values, exceptions and the Result/Option wrappers shared by the
 * whole model.  Only the shapes the connector inspects are distinguished:
 * strings, tuples, lists, dicts, exceptions, and opaque other objects.
 */
module Values {

  type byte = x: int | 0 <= x < 256

  datatype Option<+T> = None | Some(value: T)

  /** The exception classes the connector and AddonSignals raise or let through. */
  datatype ExcKind =
    | AddonConnectorException   // lib/helper.py, base of the two below
    | WaitTimeoutError          // lib/helper.py, subclass of AddonConnectorException
    | OperationAbortedError     // lib/helper.py, subclass of AddonConnectorException
    | SignalsWaitTimeoutError   // lib/AddonSignals.py, subclass of Exception only
    | TypeError
    | ValueError
    | IndexError
    | KeyError
    | UnicodeDecodeError
    | Base64Error               // binascii.Error raised by b64decode
    | OSError
    | NameError                 // a module name that was never bound
    | OtherError(name: string)  // anything raised by code the connector calls into

  datatype Exc = Exc(kind: ExcKind, message: string)

  /** Python's isinstance(e, AddonConnectorException). */
  predicate IsAddonConnectorException(k: ExcKind) {
    k == AddonConnectorException || k == WaitTimeoutError || k == OperationAbortedError
  }

  /** A Python value.  Dicts are association lists in insertion order. */
  datatype Value =
    | VNone
    | VBool(b: bool)
    | VInt(i: int)
    | VStr(s: string)
    | VList(items: seq<Value>)
    | VTuple(items: seq<Value>)
    | VDict(entries: seq<(string, Value)>)
    | VExc(exc: Exc)
    | VObject(id: nat)

  /** Python truthiness (bool(v)). */
  predicate Truthy(v: Value) {
    match v
    case VNone => false
    case VBool(b) => b
    case VInt(i) => i != 0
    case VStr(s) => s != ""
    case VList(items) => items != []
    case VTuple(items) => items != []
    case VDict(entries) => entries != []
    case VExc(_) => true
    case VObject(_) => true
  }

  /** The outcome of a Python call: a value or a raised exception. */
  datatype Result<+T> = Ok(value: T) | Err(error: Exc) {
    predicate IsFailure() { Err? }
    function PropagateFailure<U>(): Result<U>
      requires Err?
    {
      Err(error)
    }
    function Extract(): T
      requires Ok?
    {
      value
    }
  }

  /** Values that JSON can carry unchanged: no tuples, exceptions or other objects. */
  predicate IsJsonValue(v: Value) {
    match v
    case VNone => true
    case VBool(_) => true
    case VInt(_) => true
    case VStr(_) => true
    case VList(items) => forall i | 0 <= i < |items| :: IsJsonValue(items[i])
    case VDict(entries) => forall i | 0 <= i < |entries| :: IsJsonValue(entries[i].1)
    case VTuple(_) => false
    case VExc(_) => false
    case VObject(_) => false
  }

  /**
   * What json.loads(json.dumps(v)) gives back: tuples turn into lists,
   * everything else is kept.
   */
  function JsonNormal(v: Value): (r: Value)
    decreases v
  {
    match v
    case VList(items) => VList(JsonNormalSeq(items))
    case VTuple(items) => VList(JsonNormalSeq(items))
    case VDict(entries) => VDict(JsonNormalEntries(entries))
    case _ => v
  }

  function JsonNormalSeq(items: seq<Value>): (r: seq<Value>)
    ensures |r| == |items|
    decreases items
  {
    if items == [] then [] else [JsonNormal(items[0])] + JsonNormalSeq(items[1..])
  }

  function JsonNormalEntries(entries: seq<(string, Value)>): (r: seq<(string, Value)>)
    ensures |r| == |entries|
    decreases entries
  {
    if entries == [] then []
    else
      var (key, value) := entries[0];
      assert value < entries[0];
      [(key, JsonNormal(value))] + JsonNormalEntries(entries[1..])
  }

  /** JSON values survive the JSON round trip unchanged. */
  lemma {:induction false} JsonNormalOfJsonValue(v: Value)
    requires IsJsonValue(v)
    ensures JsonNormal(v) == v
    decreases v, 1
  {
    match v
    case VList(items) => JsonNormalSeqOfJsonValues(items);
    case VDict(entries) => JsonNormalEntriesOfJsonValues(entries);
    case _ =>
  }

  lemma {:induction false} JsonNormalSeqOfJsonValues(items: seq<Value>)
    requires forall i | 0 <= i < |items| :: IsJsonValue(items[i])
    ensures JsonNormalSeq(items) == items
    decreases items, 0
  {
    if items != [] {
      JsonNormalOfJsonValue(items[0]);
      JsonNormalSeqOfJsonValues(items[1..]);
    }
  }

  lemma {:induction false} JsonNormalEntriesOfJsonValues(entries: seq<(string, Value)>)
    requires forall i | 0 <= i < |entries| :: IsJsonValue(entries[i].1)
    ensures JsonNormalEntries(entries) == entries
    decreases entries, 0
  {
    if entries != [] {
      assert entries[0].1 < entries[0];
      JsonNormalOfJsonValue(entries[0].1);
      JsonNormalEntriesOfJsonValues(entries[1..]);
    }
  }
}
