/**
 * The codec and call configuration of the connector (lib/helper.py):
 * the constants of the wire protocol, serialize_data / deserialize_data for
 * the four serialisation types, the JSONRPC.NotifyAll request template and
 * CallConfig.
 *
 * pickle and json are libraries this module does not define: they are passed in as a
 * pair of functions each, and the round-trip lemmas assume only that the
 * pair is lawful (see PickleLawful and JsonLawful).
 */
module Helper {
  import opened Values
  import Base64
  import Utf8

  const RETURN_CALL_PREFIX: string := "__returncall__"
  const SENDER_ID_SUFFIX: string := ".ADDONCONNECTOR"

  const SER_TYPE_PICKLE: string := "pickle"
  const SER_TYPE_JSON: string := "json"
  const SER_TYPE_STRING: string := "str"
  const SER_TYPE_NONE: string := "none"

  predicate IsKnownSerType(serType: string) {
    serType == SER_TYPE_PICKLE || serType == SER_TYPE_JSON || serType == SER_TYPE_STRING || serType == SER_TYPE_NONE
  }

  /** pickle.dumps(data, HIGHEST_PROTOCOL) and pickle.loads. */
  datatype Pickler = Pickler(dumps: Value -> Result<seq<byte>>, loads: seq<byte> -> Result<Value>)

  /** json.dumps and json.loads (on text). */
  datatype JsonLib = JsonLib(dumps: Value -> Result<string>, loads: string -> Result<Value>)

  datatype Libraries = Libraries(pickle: Pickler, json: JsonLib)

  /** pickle gives back what it was given. */
  ghost predicate PickleLawful(p: Pickler) {
    forall v :: p.dumps(v).Ok? ==> p.loads(p.dumps(v).value) == Ok(v)
  }

  /** json gives back what it was given, with tuples turned into lists. */
  ghost predicate JsonLawful(j: JsonLib) {
    forall v :: j.dumps(v).Ok? ==> j.loads(j.dumps(v).value) == Ok(JsonNormal(v))
  }

  function Unsupported(serType: string): Exc {
    Exc(AddonConnectorException, "The specified type of serialization \"" + serType + "\" is not supported")
  }

  /** b64decode of clean text. */
  function B64Decode(data: string): (r: Result<seq<byte>>)
    ensures r.Ok? <==> Base64.Decode(data).Some?
    ensures forall b :: data == Base64.Encode(b) ==> r == Ok(b)
  {
    assert forall b | data == Base64.Encode(b) :: Base64.Decode(data) == Some(b) by {
      forall b | data == Base64.Encode(b)
        ensures Base64.Decode(data) == Some(b)
      {
        Base64.DecodeEncode(b);
      }
    }
    match Base64.Decode(data)
    case Some(bytes) => Ok(bytes)
    case None => Err(Exc(Base64Error, "Invalid base64-encoded string"))
  }

  /** bytes.decode('utf-8'), strict. */
  function Utf8Decode(bytes: seq<byte>): (r: Result<string>)
    ensures r.Ok? <==> Utf8.Decode(bytes).Some?
    ensures forall s :: bytes == Utf8.Encode(s) ==> r == Ok(s)
  {
    assert forall s | bytes == Utf8.Encode(s) :: Utf8.Decode(bytes) == Some(s) by {
      forall s | bytes == Utf8.Encode(s)
        ensures Utf8.Decode(bytes) == Some(s)
      {
        Utf8.DecodeEncode(s);
      }
    }
    match Utf8.Decode(bytes)
    case Some(text) => Ok(text)
    case None => Err(Exc(UnicodeDecodeError, "'utf-8' codec can't decode bytes"))
  }

  /** len(v) */
  function Len(v: Value): (r: Result<nat>)
    ensures r.Ok? <==> v.VStr? || v.VList? || v.VTuple? || v.VDict?
    ensures r.Err? ==> r.error.kind == TypeError
    ensures (v.VList? || v.VTuple?) ==> r == Ok(|v.items|)
  {
    match v
    case VStr(s) => Ok(|s|)
    case VList(items) => Ok(|items|)
    case VTuple(items) => Ok(|items|)
    case VDict(entries) => Ok(|entries|)
    case _ => Err(Exc(TypeError, "object has no len()"))
  }

  /** v[0], for a v whose len() is 1. */
  function First(v: Value): (r: Result<Value>)
    ensures r.Ok? ==> Len(v).Ok? && Len(v).value > 0 && !v.VDict?
    ensures (v.VList? || v.VTuple?) && |v.items| > 0 ==> r == Ok(v.items[0])
    ensures v.VStr? && |v.s| > 0 ==> r == Ok(VStr([v.s[0]]))
  {
    match v
    case VStr(s) => if |s| > 0 then assert s[..1] == [s[0]]; Ok(VStr(s[..1])) else Err(Exc(IndexError, "string index out of range"))
    case VList(items) => if |items| > 0 then Ok(items[0]) else Err(Exc(IndexError, "list index out of range"))
    case VTuple(items) => if |items| > 0 then Ok(items[0]) else Err(Exc(IndexError, "tuple index out of range"))
    case VDict(_) => Err(Exc(KeyError, "0"))
    case _ => Err(Exc(TypeError, "object is not subscriptable"))
  }

  const KWARGS_NOT_SUPPORTED := Exc(AddonConnectorException, "With SER_TYPE_STRING kwargs are not supported")
  const TOO_MANY_ARGUMENTS := Exc(AddonConnectorException, "With SER_TYPE_STRING only until to one argument is supported")
  const NOT_A_STRING := Exc(AddonConnectorException, "The data are not of string type")

  /**
   * The text the 'str' type sends: a tuple is taken as (args, kwargs) and
   * unwrapped to its single argument (or '' for none); the result must be a str.
   */
  function StrModeText(data: Value): Result<string> {
    var unwrapped :-
      match data
      case VTuple(items) =>
        if |items| < 2 then Err(Exc(IndexError, "tuple index out of range"))
        else if Truthy(items[1]) then Err(KWARGS_NOT_SUPPORTED)
        else
          var count :- Len(items[0]);
          if count > 1 then Err(TOO_MANY_ARGUMENTS)
          else if count == 1 then First(items[0])
          else Ok(VStr(""))
      case _ => Ok(data);
    if unwrapped.VStr? then Ok(unwrapped.s) else Err(NOT_A_STRING)
  }

  /** serialize_data: the wire text of data under serType. */
  function Serialize(libs: Libraries, serType: string, data: Value): (r: Result<string>)
    ensures r.Ok? ==> Base64.IsBase64Text(r.value)
    ensures r.Ok? ==> '"' !in r.value && '\\' !in r.value
    ensures !IsKnownSerType(serType) ==> r == Err(Unsupported(serType))
  {
    if serType == SER_TYPE_PICKLE then
      var bytes :- libs.pickle.dumps(data);
      Base64.EncodedNeedsNoJsonEscape(bytes);
      Ok(Base64.Encode(bytes))
    else if serType == SER_TYPE_JSON then
      var text :- libs.json.dumps(data);
      Base64.EncodedNeedsNoJsonEscape(Utf8.Encode(text));
      Ok(Base64.Encode(Utf8.Encode(text)))
    else if serType == SER_TYPE_STRING then
      var text :- StrModeText(data);
      Base64.EncodedNeedsNoJsonEscape(Utf8.Encode(text));
      Ok(Base64.Encode(Utf8.Encode(text)))
    else if serType == SER_TYPE_NONE then
      Ok("")
    else
      Err(Unsupported(serType))
  }

  /** deserialize_data: the value the wire text data stands for under serType. */
  function Deserialize(libs: Libraries, serType: string, data: string): (r: Result<Value>)
    ensures !IsKnownSerType(serType) ==> r == Err(Unsupported(serType))
  {
    if serType == SER_TYPE_PICKLE then
      var bytes :- B64Decode(data);
      libs.pickle.loads(bytes)
    else if serType == SER_TYPE_JSON then
      var bytes :- B64Decode(data);
      var text :- Utf8Decode(bytes);
      libs.json.loads(text)
    else if serType == SER_TYPE_STRING then
      var bytes :- B64Decode(data);
      var text :- Utf8Decode(bytes);
      Ok(VStr(text))
    else if serType == SER_TYPE_NONE then
      Ok(VNone)
    else
      Err(Unsupported(serType))
  }

  /** The 'str' type carries any string unchanged, whatever characters it holds. */
  lemma StrModeRoundTrip(libs: Libraries, s: string)
    ensures Serialize(libs, SER_TYPE_STRING, VStr(s)) == Ok(Base64.Encode(Utf8.Encode(s)))
    ensures Deserialize(libs, SER_TYPE_STRING, Base64.Encode(Utf8.Encode(s))) == Ok(VStr(s))
  {
    Base64.DecodeEncode(Utf8.Encode(s));
    Utf8.DecodeEncode(s);
  }

  /** The 'str' type with an (args, kwargs) tuple, case by case. */
  lemma StrModeTupleShape(libs: Libraries, args: seq<Value>, kwargs: seq<(string, Value)>)
    ensures kwargs != [] ==>
      Serialize(libs, SER_TYPE_STRING, VTuple([VTuple(args), VDict(kwargs)])) == Err(KWARGS_NOT_SUPPORTED)
    ensures kwargs == [] && |args| > 1 ==>
      Serialize(libs, SER_TYPE_STRING, VTuple([VTuple(args), VDict(kwargs)])) == Err(TOO_MANY_ARGUMENTS)
    ensures kwargs == [] && |args| == 1 && args[0].VStr? ==>
      Serialize(libs, SER_TYPE_STRING, VTuple([VTuple(args), VDict(kwargs)])) == Serialize(libs, SER_TYPE_STRING, args[0])
    ensures kwargs == [] && |args| == 1 && !args[0].VStr? ==>
      Serialize(libs, SER_TYPE_STRING, VTuple([VTuple(args), VDict(kwargs)])) == Err(NOT_A_STRING)
    ensures kwargs == [] && args == [] ==>
      Serialize(libs, SER_TYPE_STRING, VTuple([VTuple(args), VDict(kwargs)])) == Ok("")
  {
  }

  /** The 'str' type refuses anything that is not a string once unwrapped. */
  lemma StrModeRejectsNonString(libs: Libraries, data: Value)
    requires !data.VStr? && !data.VTuple?
    ensures Serialize(libs, SER_TYPE_STRING, data) == Err(NOT_A_STRING)
  {
  }

  /** The 'none' type sends nothing and receives None, whatever it is given. */
  lemma NoneModeIgnoresData(libs: Libraries, data: Value, text: string)
    ensures Serialize(libs, SER_TYPE_NONE, data) == Ok("")
    ensures Deserialize(libs, SER_TYPE_NONE, text) == Ok(VNone)
  {
  }

  /** An unknown type is refused in both directions with AddonConnectorException. */
  lemma UnknownSerTypeRejected(libs: Libraries, serType: string, data: Value, text: string)
    requires !IsKnownSerType(serType)
    ensures Serialize(libs, serType, data).Err? && Serialize(libs, serType, data).error.kind == AddonConnectorException
    ensures Deserialize(libs, serType, text).Err? && Deserialize(libs, serType, text).error.kind == AddonConnectorException
  {
  }

  /** The base64 layer of the 'pickle' type loses nothing. */
  lemma PickleModeRoundTrip(libs: Libraries, v: Value)
    requires PickleLawful(libs.pickle)
    requires libs.pickle.dumps(v).Ok?
    ensures Serialize(libs, SER_TYPE_PICKLE, v).Ok?
    ensures Deserialize(libs, SER_TYPE_PICKLE, Serialize(libs, SER_TYPE_PICKLE, v).value) == Ok(v)
  {
    Base64.DecodeEncode(libs.pickle.dumps(v).value);
  }

  /** The base64 and UTF-8 layers of the 'json' type lose nothing. */
  lemma JsonModeRoundTrip(libs: Libraries, v: Value)
    requires JsonLawful(libs.json)
    requires libs.json.dumps(v).Ok?
    ensures Serialize(libs, SER_TYPE_JSON, v).Ok?
    ensures Deserialize(libs, SER_TYPE_JSON, Serialize(libs, SER_TYPE_JSON, v).value) == Ok(JsonNormal(v))
  {
    var text := libs.json.dumps(v).value;
    Base64.DecodeEncode(Utf8.Encode(text));
    Utf8.DecodeEncode(text);
  }

  /**
   * What a value looks like to the receiver after a trip through the wire
   * under the 'pickle' or 'json' type.
   */
  function Transported(serType: string, v: Value): Value {
    if serType == SER_TYPE_JSON then JsonNormal(v) else v
  }

  /** The two object types carry every value they can encode. */
  lemma ObjectModeRoundTrip(libs: Libraries, serType: string, v: Value)
    requires serType == SER_TYPE_PICKLE || serType == SER_TYPE_JSON
    requires serType == SER_TYPE_PICKLE ==> PickleLawful(libs.pickle) && libs.pickle.dumps(v).Ok?
    requires serType == SER_TYPE_JSON ==> JsonLawful(libs.json) && libs.json.dumps(v).Ok?
    ensures Serialize(libs, serType, v).Ok?
    ensures Deserialize(libs, serType, Serialize(libs, serType, v).value) == Ok(Transported(serType, v))
  {
    if serType == SER_TYPE_PICKLE {
      PickleModeRoundTrip(libs, v);
    } else {
      JsonModeRoundTrip(libs, v);
    }
  }

  const NOTIFY_ALL_HEAD: string := "{\"id\": 0, \"jsonrpc\": \"2.0\", \"method\": \"JSONRPC.NotifyAll\", \"params\": {\"message\": \""
  const DATA_KEY: string := "\", \"data\": \""
  const NOTIFY_ALL_TAIL: string := "\"}}"

  /** A text that can sit inside a JSON string literal as it is: no quote ends it, no backslash escapes. */
  predicate NeedsNoJsonEscape(s: string) {
    '"' !in s && '\\' !in s
  }

  /** JSONRPC_NOTIFYALL_STR.format(...): the request text handed to executeJSONRPC. */
  function NotifyAllRequest(callbackName: string, serType: string, serTypeReturn: string,
                            senderId: string, data: string): string
  {
    NOTIFY_ALL_HEAD + callbackName + "." + serType + "." + serTypeReturn
    + "\", \"sender\": \"" + senderId + SENDER_ID_SUFFIX + DATA_KEY + data + NOTIFY_ALL_TAIL
  }

  /**
   * A serialised payload spliced raw into the request is exactly the body of
   * the "data" string literal: the literal opens right before it, no character
   * in it ends or escapes the literal, and the quote right after it closes it.
   */
  lemma SerializedPayloadSplicesIntoRequest(libs: Libraries, serType: string, value: Value,
                                            callbackName: string, serTypeReturn: string, senderId: string)
    requires Serialize(libs, serType, value).Ok?
    ensures var data := Serialize(libs, serType, value).value;
            var req := NotifyAllRequest(callbackName, serType, serTypeReturn, senderId, data);
            var start := |req| - |data| - |NOTIFY_ALL_TAIL|;
            && 0 <= start - |DATA_KEY|
            && req[start - |DATA_KEY|..start] == DATA_KEY
            && req[start..start + |data|] == data
            && (forall i | start <= i < start + |data| :: req[i] != '"' && req[i] != '\\')
            && req[start + |data|..] == NOTIFY_ALL_TAIL
  {
    var data := Serialize(libs, serType, value).value;
    var prefix := NOTIFY_ALL_HEAD + callbackName + "." + serType + "." + serTypeReturn
                  + "\", \"sender\": \"" + senderId + SENDER_ID_SUFFIX;
    var req := NotifyAllRequest(callbackName, serType, serTypeReturn, senderId, data);
    assert req == prefix + DATA_KEY + data + NOTIFY_ALL_TAIL;
    Spliced(prefix, DATA_KEY, data, NOTIFY_ALL_TAIL);
  }

  /** Where the pieces of p + k + d + t sit. */
  lemma Spliced(p: string, k: string, d: string, t: string)
    ensures var r := p + k + d + t;
            var start := |r| - |d| - |t|;
            && start - |k| == |p|
            && r[start - |k|..start] == k
            && r[start..start + |d|] == d
            && (forall i | start <= i < start + |d| :: r[i] == d[i - start])
            && r[start + |d|..] == t
  {
    var r := p + k + d + t;
    var start := |p| + |k|;
    assert r[start - |k|..start] == k;
    assert r[start..start + |d|] == d;
    assert r[start + |d|..] == t;
  }


  /** Python's `x or fallback` for an optional string: None and '' both fall back. */
  function OrElse(x: Option<string>, fallback: string): (r: string)
    ensures x.Some? && x.value != "" ==> r == x.value
    ensures x.None? || x.value == "" ==> r == fallback
  {
    if x.Some? && x.value != "" then x.value else fallback
  }

  /** CallConfig: the target, timeout and serialisation types of one call. */
  class CallConfig {
    var callbackName: string
    var addonId: string
    var timeoutSecs: real
    var serType: string
    var serTypeReturn: string

    /** hostAddonId stands for get_addon_id(), the id of the add-on that loaded the module. */
    constructor(callbackName: string, hostAddonId: string, addonId: Option<string> := None,
                timeoutSecs: real := 10.0, serType: string := SER_TYPE_PICKLE,
                serTypeReturn: Option<string> := None)
      ensures this.callbackName == callbackName
      ensures this.addonId == OrElse(addonId, hostAddonId)
      ensures this.timeoutSecs == timeoutSecs
      ensures this.serType == serType
      ensures this.serTypeReturn == OrElse(serTypeReturn, serType)
    {
      this.callbackName := callbackName;
      this.addonId := OrElse(addonId, hostAddonId);
      this.timeoutSecs := timeoutSecs;
      this.serType := serType;
      this.serTypeReturn := OrElse(serTypeReturn, serType);
    }

    /** Renames the callback in place and hands back the same object. */
    method ChangeName(callbackName: string) returns (self: CallConfig)
      modifies this
      ensures self == this
      ensures this.callbackName == callbackName
      ensures addonId == old(addonId) && timeoutSecs == old(timeoutSecs)
      ensures serType == old(serType) && serTypeReturn == old(serTypeReturn)
    {
      this.callbackName := callbackName;
      self := this;
    }
  }

  /** The defaults of CallConfig: 10 seconds, 'pickle' both ways, the host add-on as target. */
  method DefaultCallConfig(callbackName: string, hostAddonId: string) returns (config: CallConfig)
    ensures fresh(config)
    ensures config.callbackName == callbackName && config.addonId == hostAddonId
    ensures config.timeoutSecs == 10.0
    ensures config.serType == SER_TYPE_PICKLE && config.serTypeReturn == SER_TYPE_PICKLE
  {
    config := new CallConfig(callbackName, hostAddonId);
  }
}
