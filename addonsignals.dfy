/**
 * The legacy signal/slot variant (lib/AddonSignals.py): base64-encoded JSON
 * payloads, a ".SIGNAL" sender suffix, and blocking calls answered on the
 * "_return." + signal slot.
 *
 * The module-level singleton _receiver() is passed in as `receiver`, the
 * broadcast primitive as `bus`, json as `json`, and _addon_id() as
 * `hostAddonId`.  Kodi re-serialises the data list of a NotifyAll before
 * handing it to the monitors; the model lets the same json library do that.
 */
module AddonSignals {
  import opened Values
  import opened Strings
  import opened Helper
  import opened Host
  import opened Polling
  import opened SlotRegistry
  import Base64
  import Utf8

  const SIGNAL_SUFFIX: string := ".SIGNAL"
  const RETURN_PREFIX: string := "_return."

  /** A str, or the bytes b64decode returns. */
  datatype Text = Bytes(bytes: seq<byte>) | Str(s: string)

  /** _to_unicode: bytes are decoded as strict UTF-8, text passes through. */
  function ToUnicode(t: Text): (r: Result<string>)
    ensures t.Str? ==> r == Ok(t.s)
    ensures t.Bytes? ==> (r.Ok? <==> Utf8.Decode(t.bytes).Some?)
    ensures forall s :: t == Bytes(Utf8.Encode(s)) ==> r == Ok(s)
  {
    match t
    case Str(s) => Ok(s)
    case Bytes(b) => Utf8Decode(b)
  }

  /** The UTF-8 bytes of any text convert back to that text. */
  lemma ToUnicodeOfEncoded(s: string)
    ensures ToUnicode(Bytes(Utf8.Encode(s))) == Ok(s)
  {
    Utf8.DecodeEncode(s);
  }

  /** _encode_data: base64 of the UTF-8 of the JSON text. */
  function EncodeData(json: JsonLib, data: Value): (r: Result<string>)
    ensures r.Ok? ==> Base64.IsBase64Text(r.value)
    ensures r.Ok? <==> json.dumps(data).Ok?
  {
    var text :- json.dumps(data);
    Ok(Base64.Encode(Utf8.Encode(text)))
  }

  /** b64decode of something that is neither text nor bytes. */
  const NOT_BASE64_INPUT := Exc(TypeError, "")

  /** _decode_data: None for a falsy list, else element 0 decoded. */
  function DecodeData(json: JsonLib, data: string): (r: Result<Value>)
  {
    var encoded :- json.loads(data);
    if !Truthy(encoded) then Ok(VNone)
    else
      var first :- First(encoded);
      if !first.VStr? then Err(NOT_BASE64_INPUT)
      else
        var bytes :- B64Decode(first.s);
        var text :- ToUnicode(Bytes(bytes));
        json.loads(text)
  }

  /** The JSON text Kodi delivers for the data list [s]. */
  function Wrapped(json: JsonLib, s: string): (r: Result<string>)
    ensures JsonLawful(json) && r.Ok? ==> json.loads(r.value) == Ok(VList([VStr(s)]))
  {
    assert JsonNormal(VList([VStr(s)])) == VList([VStr(s)]) by {
      assert JsonNormalSeq([VStr(s)]) == [JsonNormal(VStr(s))] + JsonNormalSeq([VStr(s)][1..]);
    }
    json.dumps(VList([VStr(s)]))
  }

  /** An empty or falsy payload decodes to None. */
  lemma DecodeFalsy(json: JsonLib, data: string)
    requires json.loads(data).Ok? && !Truthy(json.loads(data).value)
    ensures DecodeData(json, data) == Ok(VNone)
  {
  }

  /** Decoding an encoded value wrapped in a one-element list gives the value back (with tuples as lists). */
  lemma DecodeEncodeData(json: JsonLib, data: Value)
    requires JsonLawful(json)
    requires EncodeData(json, data).Ok?
    requires Wrapped(json, EncodeData(json, data).value).Ok?
    ensures DecodeData(json, Wrapped(json, EncodeData(json, data).value).value) == Ok(JsonNormal(data))
    ensures IsJsonValue(data) ==> DecodeData(json, Wrapped(json, EncodeData(json, data).value).value) == Ok(data)
  {
    var text := json.dumps(data).value;
    var enc := EncodeData(json, data).value;
    assert JsonNormal(VList([VStr(enc)])) == VList([VStr(enc)]) by {
      JsonNormalOfJsonValue(VList([VStr(enc)]));
    }
    Base64.DecodeEncode(Utf8.Encode(text));
    ToUnicodeOfEncoded(text);
    if IsJsonValue(data) {
      JsonNormalOfJsonValue(data);
    }
  }

  const TEST_TEXT: string := "Fòöbàr"
  /** json.dumps('Fòöbàr') with the default ensure_ascii. */
  const TEST_JSON: string := "\"F\\u00f2\\u00f6b\\u00e0r\""
  const TEST_ENCODED: string := "IkZcdTAwZjJcdTAwZjZiXHUwMGUwciI="

  /** TEST_JSON as bytes, in the 3-byte groups base64 takes. */
  const TEST_GROUP_0: seq<byte> := [34, 70, 92]
  const TEST_GROUP_1: seq<byte> := [117, 48, 48]
  const TEST_GROUP_2: seq<byte> := [102, 50, 92]
  const TEST_GROUP_3: seq<byte> := [117, 48, 48]
  const TEST_GROUP_4: seq<byte> := [102, 54, 98]
  const TEST_GROUP_5: seq<byte> := [92, 117, 48]
  const TEST_GROUP_6: seq<byte> := [48, 101, 48]
  const TEST_GROUP_7: seq<byte> := [114, 34]
  const TEST_TAIL: seq<byte> := TEST_GROUP_4 + (TEST_GROUP_5 + (TEST_GROUP_6 + TEST_GROUP_7))
  const TEST_BYTES: seq<byte> := TEST_GROUP_0 + (TEST_GROUP_1 + (TEST_GROUP_2 + (TEST_GROUP_3 + TEST_TAIL)))

  lemma TestJsonAscii()
    ensures |TEST_JSON| == |TEST_BYTES|
    ensures forall i | 0 <= i < |TEST_JSON| :: TEST_JSON[i] as int < 0x80 && TEST_JSON[i] as int == TEST_BYTES[i]
  {
  }

  /** The JSON text of the test vector is ASCII, one byte per character. */
  lemma TestJsonBytes()
    ensures Utf8.Encode(TEST_JSON) == TEST_BYTES
  {
    TestJsonAscii();
    Utf8.EncodeAsciiBytes(TEST_JSON, TEST_BYTES);
  }

  /** Four whole groups ahead of the rest are encoded group by group. */
  lemma EncodeFourGroups(g0: seq<byte>, g1: seq<byte>, g2: seq<byte>, g3: seq<byte>, rest: seq<byte>,
                         q0: string, q1: string, q2: string, q3: string, tail: string)
    requires |g0| == 3 && |g1| == 3 && |g2| == 3 && |g3| == 3 && rest != []
    requires Base64.EncodeGroup(g0) == q0 && Base64.EncodeGroup(g1) == q1
    requires Base64.EncodeGroup(g2) == q2 && Base64.EncodeGroup(g3) == q3
    requires Base64.Encode(rest) == tail
    ensures Base64.Encode(g0 + (g1 + (g2 + (g3 + rest)))) == q0 + (q1 + (q2 + (q3 + tail)))
  {
    Base64.EncodeFullGroup(g3, rest, q3, tail);
    Base64.EncodeFullGroup(g2, g3 + rest, q2, q3 + tail);
    Base64.EncodeFullGroup(g1, g2 + (g3 + rest), q1, q2 + (q3 + tail));
    Base64.EncodeFullGroup(g0, g1 + (g2 + (g3 + rest)), q0, q1 + (q2 + (q3 + tail)));
  }

  /** The last four groups. */
  lemma TestTailEncoded()
    ensures Base64.Encode(TEST_TAIL) == "ZjZiXHUwMGUwciI="
  {
    Base64.EncodeGroupChars(102, 54, 98, 'Z', 'j', 'Z', 'i');
    Base64.EncodeGroupChars(92, 117, 48, 'X', 'H', 'U', 'w');
    Base64.EncodeGroupChars(48, 101, 48, 'M', 'G', 'U', 'w');
    Base64.EncodePairChars(114, 34, 'c', 'i', 'I');
    Base64.EncodeFullGroup(TEST_GROUP_6, TEST_GROUP_7, "MGUw", "ciI=");
    Base64.EncodeFullGroup(TEST_GROUP_5, TEST_GROUP_6 + TEST_GROUP_7, "XHUw", "MGUwciI=");
    Base64.EncodeFullGroup(TEST_GROUP_4, TEST_GROUP_5 + (TEST_GROUP_6 + TEST_GROUP_7), "ZjZi", "XHUwMGUwciI=");
  }

  const TEST_CODES: string := "IkZc" + ("dTAw" + ("ZjJc" + ("dTAw" + "ZjZiXHUwMGUwciI=")))

  lemma TestBytesGrouped()
    ensures Base64.Encode(TEST_BYTES) == TEST_CODES
  {
    Base64.EncodeGroupChars(34, 70, 92, 'I', 'k', 'Z', 'c');
    Base64.EncodeGroupChars(117, 48, 48, 'd', 'T', 'A', 'w');
    Base64.EncodeGroupChars(102, 50, 92, 'Z', 'j', 'J', 'c');
    TestTailEncoded();
    EncodeFourGroups(TEST_GROUP_0, TEST_GROUP_1, TEST_GROUP_2, TEST_GROUP_3, TEST_TAIL,
                     "IkZc", "dTAw", "ZjJc", "dTAw", "ZjZiXHUwMGUwciI=");
  }

  lemma TestCodesSpelled()
    ensures TEST_CODES == TEST_ENCODED
  {
  }

  /** The base64 of those bytes, group by group. */
  lemma TestBytesEncoded()
    ensures Base64.Encode(TEST_BYTES) == TEST_ENCODED
  {
    TestBytesGrouped();
    TestCodesSpelled();
  }

  /** The encoding test vector: the JSON text of 'Fòöbàr' encodes to the expected base64. */
  lemma EncodeTestVector(json: JsonLib)
    requires json.dumps(VStr(TEST_TEXT)) == Ok(TEST_JSON)
    ensures EncodeData(json, VStr(TEST_TEXT)) == Ok(TEST_ENCODED)
  {
    TestJsonBytes();
    TestBytesEncoded();
  }

  /** What a callback slot of the legacy receiver calls. */
  datatype SignalCallback =
    | Waiter(handler: CallHandler)   // CallHandler.callback
    | UserCallback(name: string)     // a function registered by the add-on

  /** What a notification made the receiver do. */
  datatype SignalDispatch =
    | Ignored
    | Failed(error: Exc)                              // _decode_data raised
    | Called(callback: SignalCallback, data: Value)   // callback(_decode_data(data))

  /** The signaler id of a ".SIGNAL" sender: the sender without those 7 characters. */
  function SignalerId(sender: string): (id: string)
    requires EndsWith(sender, SIGNAL_SUFFIX)
    ensures id + SIGNAL_SUFFIX == sender
  {
    assert sender == sender[..|sender| - 7] + sender[|sender| - 7..];
    sender[..|sender| - 7]
  }

  /** Stripping the suffix gives back exactly the id that was sent, dots and all. */
  lemma SignalerIdRecovers(sourceId: string)
    ensures EndsWith(sourceId + SIGNAL_SUFFIX, SIGNAL_SUFFIX)
    ensures SignalerId(sourceId + SIGNAL_SUFFIX) == sourceId
  {
    EndsWithConcat(sourceId, SIGNAL_SUFFIX);
  }

  /** The signal a method names: the text after its first '.'. */
  function SignalOf(methodName: string): string {
    AfterFirst(methodName, '.')
  }

  /** Kodi's "Other." prefix is stripped and the signal kept whole, even when it holds dots. */
  lemma SignalOfOther(signal: string)
    ensures SignalOf(OTHER_PREFIX + signal) == signal
  {
    assert OTHER_PREFIX + signal == "Other" + ['.'] + signal;
    AfterFirstOfField("Other", signal, '.');
  }

  /** A method without a dot is its own signal. */
  lemma SignalOfUndotted(methodName: string)
    requires '.' !in methodName
    ensures SignalOf(methodName) == methodName
  {
    AfterFirstNoSep(methodName, '.');
  }

  /** SignalReceiver: the Monitor of the legacy variant; its slots map to callbacks directly. */
  class SignalReceiver {
    var slots: Table<SignalCallback>

    constructor()
      ensures slots == map[]
    {
      slots := map[];
    }

    /** registerSlot: a later callback for the same (signaler_id, signal) replaces the earlier one. */
    method RegisterSlot(signalerId: string, signal: string, callback: SignalCallback)
      modifies this
      ensures slots == WithSlot(old(slots), signalerId, signal, callback)
    {
      if signalerId !in slots {
        slots := slots[signalerId := map[]];
      }
      slots := slots[signalerId := slots[signalerId][signal := callback]];
    }

    /** unRegisterSlot: missing entries are ignored. */
    method UnRegisterSlot(signalerId: string, signal: string)
      modifies this
      ensures slots == WithoutSlot(old(slots), signalerId, signal)
    {
      if signalerId !in slots {
        return;
      }
      if signal !in slots[signalerId] {
        return;
      }
      slots := slots[signalerId := slots[signalerId] - {signal}];
    }

    /** onNotification(sender, method, data) */
    function OnNotification(sender: string, methodName: string, data: string, json: JsonLib): (d: SignalDispatch)
      reads this
      ensures d.Ignored? <==>
                || !EndsWith(sender, SIGNAL_SUFFIX)
                || Lookup(slots, SignalerId(sender), SignalOf(methodName)).None?
      ensures d.Called? ==> Lookup(slots, SignalerId(sender), SignalOf(methodName)) == Some(d.callback)
                            && DecodeData(json, data) == Ok(d.data)
      ensures d.Failed? ==> DecodeData(json, data) == Err(d.error)
    {
      if !EndsWith(sender, SIGNAL_SUFFIX) then Ignored
      else
        var signalerId := sender[..|sender| - 7];
        if signalerId !in slots then Ignored
        else
          var signal := AfterFirst(methodName, '.');
          if signal !in slots[signalerId] then Ignored
          else
            match DecodeData(json, data)
            case Err(e) => Failed(e)
            case Ok(v) => Called(slots[signalerId][signal], v)
    }
  }

  /** sendSignal as the notification it broadcasts, or the error _encode_data raises. */
  function SignalNotification(json: JsonLib, hostAddonId: string, signal: string, data: Value,
                              sourceId: Option<string>, sourceID: Option<string>): (r: Result<Notification>)
    ensures r.Ok? ==> r.value.sender == OrElse(sourceId, OrElse(sourceID, hostAddonId)) + SIGNAL_SUFFIX
    ensures r.Ok? ==> r.value.methodName == OTHER_PREFIX + signal
  {
    var encoded :- EncodeData(json, data);
    var payload :- Wrapped(json, encoded);
    Ok(Notification(OrElse(sourceId, OrElse(sourceID, hostAddonId)) + SIGNAL_SUFFIX, OTHER_PREFIX + signal, payload))
  }

  /** sendSignal(signal, data, source_id, sourceID) */
  method SendSignal(bus: Bus, json: JsonLib, hostAddonId: string, signal: string, data: Value := VNone,
                    sourceId: Option<string> := None, sourceID: Option<string> := None) returns (raised: Option<Exc>)
    modifies bus
    ensures Sent(old(bus.log), bus.log, SignalNotification(json, hostAddonId, signal, data, sourceId, sourceID), raised)
  {
    var encoded := EncodeData(json, data);
    if encoded.Err? {
      return Some(encoded.error);
    }
    var payload := Wrapped(json, encoded.value);
    if payload.Err? {
      return Some(payload.error);
    }
    bus.NotifyAll(OrElse(sourceId, OrElse(sourceID, hostAddonId)) + SIGNAL_SUFFIX, signal, payload.value);
    raised := None;
  }

  /** returnCall(signal, data, source_id): a signal to the "_return." slot of signal. */
  method ReturnCall(bus: Bus, json: JsonLib, hostAddonId: string, signal: string, data: Value := VNone,
                    sourceId: Option<string> := None) returns (raised: Option<Exc>)
    modifies bus
    ensures Sent(old(bus.log), bus.log, SignalNotification(json, hostAddonId, RETURN_PREFIX + signal, data, sourceId, None), raised)
  {
    raised := SendSignal(bus, json, hostAddonId, RETURN_PREFIX + signal, data, sourceId);
  }

  /**
   * A signal sent with a source id reaches the slot registered for that id
   * and signal, which is called with the data (as JSON carries it).
   */
  lemma SignalReachesSlot(json: JsonLib, hostAddonId: string, receiver: SignalReceiver, sourceId: string,
                          signal: string, data: Value)
    requires JsonLawful(json)
    requires sourceId != ""
    requires EncodeData(json, data).Ok? && Wrapped(json, EncodeData(json, data).value).Ok?
    requires Lookup(receiver.slots, sourceId, signal).Some?
    ensures var n := SignalNotification(json, hostAddonId, signal, data, Some(sourceId), None);
            && n.Ok?
            && receiver.OnNotification(n.value.sender, n.value.methodName, n.value.data, json)
               == Called(Lookup(receiver.slots, sourceId, signal).value, JsonNormal(data))
  {
    var n := SignalNotification(json, hostAddonId, signal, data, Some(sourceId), None);
    assert n.value.sender == sourceId + SIGNAL_SUFFIX;
    SignalerIdRecovers(sourceId);
    SignalOfOther(signal);
    DecodeEncodeData(json, data);
  }

  /** How waitForReturn hands the end of a wait to its caller. */
  function LegacyOutcome(exit: Exit, useTimeoutException: bool): (r: CallOutcome)
    ensures exit.Fulfilled? ==> r == Returned(exit.data)
    ensures exit.TimedOut? && useTimeoutException ==> r.Raised? && r.error.kind == SignalsWaitTimeoutError
    ensures exit.TimedOut? && !useTimeoutException ==> r == Returned(VNone)
    ensures exit.Aborted? ==> r.Raised? && r.error.kind == OSError
  {
    match exit
    case Fulfilled(v) => Returned(v)
    case TimedOut => if useTimeoutException then Raised(Exc(SignalsWaitTimeoutError, "")) else Returned(VNone)
    case Aborted => Raised(Exc(OSError, ""))
    case StillWaiting => Blocked
  }

  /** CallHandler of the legacy variant: one blocking call and its "_return." slot. */
  class CallHandler {
    const signal: string
    /** The timeout in milliseconds. */
    const timeout: int
    const sourceId: string
    const useTimeoutException: bool
    const receiver: SignalReceiver
    var returnData: Value
    var isCallbackReceived: bool
    /** The exception __init__ raised after registering the return slot, if any. */
    var initError: Option<Exc>

    /** Nothing was returned until the callback ran. */
    ghost predicate Valid()
      reads this
    {
      !isCallbackReceived ==> returnData == VNone
    }

    constructor(signal: string, data: Value, sourceId: string, receiver: SignalReceiver, bus: Bus,
                json: JsonLib, hostAddonId: string, timeout: int := 1000, useTimeoutException: bool := false)
      modifies receiver, bus
      ensures Valid() && !isCallbackReceived
      ensures this.signal == signal && this.timeout == timeout && this.sourceId == sourceId
      ensures this.useTimeoutException == useTimeoutException && this.receiver == receiver
      ensures receiver.slots == WithSlot(old(receiver.slots), sourceId, RETURN_PREFIX + signal, Waiter(this))
      ensures Sent(old(bus.log), bus.log, SignalNotification(json, hostAddonId, signal, data, Some(sourceId), None), initError)
    {
      this.signal := signal;
      this.timeout := timeout;
      this.sourceId := sourceId;
      this.useTimeoutException := useTimeoutException;
      this.receiver := receiver;
      returnData := VNone;
      isCallbackReceived := false;
      initError := None;
      new;
      receiver.RegisterSlot(sourceId, RETURN_PREFIX + signal, Waiter(this));
      initError := SendSignal(bus, json, hostAddonId, signal, data, Some(sourceId));
    }

    /** callback(data): the latest data wins. */
    method Callback(data: Value)
      modifies this
      ensures isCallbackReceived && returnData == data
      ensures initError == old(initError)
      ensures Valid()
    {
      returnData := data;
      isCallbackReceived := true;
    }

    /** The polling loop of waitForReturn, without its cleanup. */
    method AwaitReturn(endTime: real, polls: seq<Poll>) returns (exit: Exit)
      modifies this
      requires Valid()
      ensures exit == AwaitSpec(old(isCallbackReceived), old(returnData), endTime, polls)
      ensures exit.Fulfilled? ==> isCallbackReceived && returnData == exit.data
      ensures !exit.Fulfilled? ==> !isCallbackReceived
      ensures Valid()
    {
      var i := 0;
      while !isCallbackReceived
        invariant 0 <= i <= |polls|
        invariant AwaitSpec(isCallbackReceived, returnData, endTime, polls[i..])
                  == AwaitSpec(old(isCallbackReceived), old(returnData), endTime, polls)
        invariant Valid()
        decreases |polls| - i
      {
        if i == |polls| {
          return StillWaiting;
        }
        var p := polls[i];
        assert polls[i..][0] == p && polls[i..][1..] == polls[i + 1..];
        if p.now > endTime {
          return TimedOut;
        }
        if p.abortRequested {
          return Aborted;
        }
        if p.delivered.Some? {
          Callback(p.delivered.value);
        }
        i := i + 1;
      }
      return Fulfilled(returnData);
    }

    /** waitForReturn, as written; start is the clock reading when it is called. */
    method WaitForReturn(start: real, polls: seq<Poll>) returns (r: CallOutcome)
      modifies this, receiver
      requires Valid()
      ensures var exit := AwaitSpec(old(isCallbackReceived), old(returnData), start + (timeout as real) / 1000.0, polls);
              && r == LegacyOutcome(exit, useTimeoutException)
              && receiver.slots == Cleanup(old(receiver.slots), exit, signal, sourceId)
    {
      var exit := AwaitReturn(start + (timeout as real) / 1000.0, polls);
      if exit.TimedOut? && useTimeoutException {
        receiver.UnRegisterSlot(sourceId, signal);
        return Raised(Exc(SignalsWaitTimeoutError, ""));
      }
      if exit.Aborted? {
        return Raised(Exc(OSError, ""));
      }
      if exit.StillWaiting? {
        return Blocked;
      }
      receiver.UnRegisterSlot(sourceId, signal);
      r := Returned(returnData);
    }

    /** waitForReturn unregistering the "_return." slot it waited on. */
    method WaitForReturnCorrected(start: real, polls: seq<Poll>) returns (r: CallOutcome)
      modifies this, receiver
      requires Valid()
      ensures var exit := AwaitSpec(old(isCallbackReceived), old(returnData), start + (timeout as real) / 1000.0, polls);
              && r == LegacyOutcome(exit, useTimeoutException)
              && receiver.slots == Cleanup(old(receiver.slots), exit, RETURN_PREFIX + signal, sourceId)
    {
      var exit := AwaitReturn(start + (timeout as real) / 1000.0, polls);
      if exit.TimedOut? && useTimeoutException {
        receiver.UnRegisterSlot(sourceId, RETURN_PREFIX + signal);
        return Raised(Exc(SignalsWaitTimeoutError, ""));
      }
      if exit.Aborted? {
        return Raised(Exc(OSError, ""));
      }
      if exit.StillWaiting? {
        return Blocked;
      }
      receiver.UnRegisterSlot(sourceId, RETURN_PREFIX + signal);
      r := Returned(returnData);
    }
  }

  /**
   * The NameError waitForReturn raises as written: lib/AddonSignals.py imports
   * Monitor and sleep from xbmc but never binds the name xbmc itself, which
   * waitForReturn looks up first (and time, which _perf_clock looks up next).
   */
  const XBMC_UNBOUND := Exc(NameError, "name 'xbmc' is not defined")

  /**
   * makeCall as written: the CallHandler registers its "_return." slot and
   * sends the signal, then waitForReturn raises NameError before its first
   * pass, so every call fails, the return slot stays and nothing is cleaned up.
   */
  method MakeCallAsWritten(bus: Bus, json: JsonLib, hostAddonId: string, receiver: SignalReceiver, signal: string,
                           data: Value, sourceId: string,
                           timeoutMs: int := 1000, useTimeoutException: bool := false) returns (r: CallOutcome)
    modifies bus, receiver
    ensures var n := SignalNotification(json, hostAddonId, signal, data, Some(sourceId), None);
            && (n.Ok? ==> bus.log == old(bus.log) + [n.value] && r == Raised(XBMC_UNBOUND))
            && (n.Err? ==> bus.log == old(bus.log) && r == Raised(n.error))
            && Lookup(receiver.slots, sourceId, RETURN_PREFIX + signal).Some?
            && Lookup(receiver.slots, sourceId, RETURN_PREFIX + signal).value.Waiter?
            && (forall a, k | a != sourceId || k != RETURN_PREFIX + signal ::
                  Lookup(receiver.slots, a, k) == Lookup(old(receiver.slots), a, k))
  {
    var handler := new CallHandler(signal, data, sourceId, receiver, bus, json, hostAddonId, timeoutMs, useTimeoutException);
    if handler.initError.Some? {
      return Raised(handler.initError.value);
    }
    r := Raised(XBMC_UNBOUND);
  }

  /**
   * With the clock and monitor bound as intended, a wait whose answer arrives
   * on time, after any number of quiet passes and before an abort, returns
   * that answer whatever the timeout setting and whatever follows, and never
   * the NameError.
   */
  lemma AnsweredCallReturnsAnswer(endTime: real, quiet: seq<Poll>, p: Poll, rest: seq<Poll>, useTimeoutException: bool)
    requires forall j | 0 <= j < |quiet| :: IsQuiet(quiet[j], endTime)
    requires p.now <= endTime && !p.abortRequested && p.delivered.Some?
    ensures LegacyOutcome(AwaitSpec(false, VNone, endTime, quiet + [p] + rest), useTimeoutException)
            == Returned(p.delivered.value)
    ensures LegacyOutcome(AwaitSpec(false, VNone, endTime, quiet + [p] + rest), useTimeoutException)
            != Raised(XBMC_UNBOUND)
  {
    assert quiet + [p] + rest == quiet + ([p] + rest);
    QuietPrefix(VNone, endTime, quiet, [p] + rest);
    assert ([p] + rest)[0] == p && ([p] + rest)[1..] == rest;
  }

  /**
   * makeCall: early is the answer delivered while the signal is being sent
   * (Kodi may deliver notifications synchronously), start the clock reading
   * when the wait begins, polls what each pass of the wait observes.
   */
  method MakeCall(bus: Bus, json: JsonLib, hostAddonId: string, receiver: SignalReceiver, signal: string,
                  data: Value, sourceId: string, early: Option<Value>, start: real, polls: seq<Poll>,
                  timeoutMs: int := 1000, useTimeoutException: bool := false) returns (r: CallOutcome)
    modifies bus, receiver
    ensures var n := SignalNotification(json, hostAddonId, signal, data, Some(sourceId), None);
            var exit := AwaitSpec(early.Some?, if early.Some? then early.value else VNone,
                                  start + (timeoutMs as real) / 1000.0, polls);
            var cleaned := n.Ok? && (exit.Fulfilled? || exit.TimedOut?);
            && (n.Ok? ==> bus.log == old(bus.log) + [n.value] && r == LegacyOutcome(exit, useTimeoutException))
            && (n.Err? ==> bus.log == old(bus.log) && r == Raised(n.error))
            && Lookup(receiver.slots, sourceId, RETURN_PREFIX + signal).Some?
            && Lookup(receiver.slots, sourceId, RETURN_PREFIX + signal).value.Waiter?
            && fresh(Lookup(receiver.slots, sourceId, RETURN_PREFIX + signal).value.handler)
            && (cleaned ==> Lookup(receiver.slots, sourceId, signal) == None)
            && (!cleaned ==> Lookup(receiver.slots, sourceId, signal) == Lookup(old(receiver.slots), sourceId, signal))
            && (forall a, k | a != sourceId || (k != RETURN_PREFIX + signal && k != signal) ::
                  Lookup(receiver.slots, a, k) == Lookup(old(receiver.slots), a, k))
  {
    PrefixedNameDiffers(RETURN_PREFIX, signal);
    var handler := new CallHandler(signal, data, sourceId, receiver, bus, json, hostAddonId, timeoutMs, useTimeoutException);
    if handler.initError.Some? {
      return Raised(handler.initError.value);
    }
    if early.Some? {
      handler.Callback(early.value);
    }
    r := handler.WaitForReturn(start, polls);
  }
}
