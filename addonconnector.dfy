/**
 * The connector (lib/addonconnector.py): a two-level slot registry
 * (CallReceiver), the dispatcher of incoming notifications, the blocking
 * call (CallHandler), the return envelope (EnvelopeFuncCallback) and the
 * module-level API.
 *
 * The module-level singleton _receiver() is passed in as `receiver`, the
 * broadcast primitive as `bus`, and get_addon_id() as `hostAddonId`.
 */
module AddonConnector {
  import opened Values
  import opened Strings
  import opened Helper
  import opened Host
  import opened Polling
  import opened SlotRegistry

  /** A user function handed to register_callback; only its __name__ matters here. */
  datatype Func = Func(name: string)

  /** An EnvelopeFuncCallback; its three fields are set once and only read. */
  datatype Envelope = Envelope(func: Func, callbackName: string, addonId: string)

  /** What a slot calls. */
  datatype Callback =
    | BoundReturn(handler: CallHandler)   // CallHandler.return_callback
    | EnvelopeCall(envelope: Envelope)    // EnvelopeFuncCallback.call_func
    | Plain(func: Func)                   // a user function registered with handle_return_call=False

  /** The slot record {'callback_func', 'ser_type_return', 'run_threaded'}. */
  datatype Slot = Slot(callbackFunc: Callback, serTypeReturn: Option<string>, runThreaded: bool)

  /** CallReceiver.slots: addon_id -> callback_name -> slot. */
  type Registry = Table<Slot>

  /** What a notification made the receiver do. */
  datatype Dispatch =
    | Ignored                                                             // returned without calling anything
    | Failed(error: Exc)                                                  // raised
    | Invoked(callback: Callback, args: Value, kwargs: Value, threaded: bool)  // func(*args, **kwargs)

  const INTERNAL_ERROR := Exc(AddonConnectorException, "Internal error see log details")

  /** The addon_id in front of the last '.' of the sender. */
  function SenderAddonId(sender: string): (id: string)
    ensures '.' !in sender ==> id == sender
    ensures '.' in sender ==> && |id| < |sender| && sender[..|id|] == id && sender[|id|] == '.'
                              && '.' !in sender[|id| + 1..]
  {
    var parts := RSplitOnce(sender, '.');
    assert |parts| == 2 ==> sender[..|parts[0]|] == parts[0] && sender[|parts[0]| + 1..] == parts[1] by {
      if |parts| == 2 {
        assert sender == parts[0] + ['.'] + parts[1];
      }
    }
    parts[0]
  }

  /** rsplit('.', 1) recovers the add-on id however many dots it holds. */
  lemma SenderAddonIdRecovers(addonId: string)
    ensures EndsWith(addonId + SENDER_ID_SUFFIX, SENDER_ID_SUFFIX)
    ensures SenderAddonId(addonId + SENDER_ID_SUFFIX) == addonId
  {
    assert addonId + SENDER_ID_SUFFIX == addonId + ['.'] + "ADDONCONNECTOR";
    RSplitOnceOfField(addonId, "ADDONCONNECTOR", '.');
    EndsWithConcat(addonId, SENDER_ID_SUFFIX);
  }

  /** `args, kwargs = value`: Python's unpacking into two names. */
  function Unpack2(v: Value): (r: Result<(Value, Value)>)
    ensures r.Ok? <==> Len(v) == Ok(2)
    ensures r.Err? ==> (r.error.kind == TypeError <==> Len(v).Err?)
  {
    var wrongCount := (n: nat) =>
      if n < 2 then Exc(ValueError, "not enough values to unpack (expected 2)")
      else Exc(ValueError, "too many values to unpack (expected 2)");
    match v
    case VTuple(items) => if |items| == 2 then Ok((items[0], items[1])) else Err(wrongCount(|items|))
    case VList(items) => if |items| == 2 then Ok((items[0], items[1])) else Err(wrongCount(|items|))
    case VStr(s) => if |s| == 2 then Ok((VStr([s[0]]), VStr([s[1]]))) else Err(wrongCount(|s|))
    case VDict(entries) =>
      if |entries| == 2 then Ok((VStr(entries[0].0), VStr(entries[1].0))) else Err(wrongCount(|entries|))
    case _ => Err(Exc(TypeError, "cannot unpack non-iterable object"))
  }

  /** The (args, kwargs) the handler is called with. */
  function HandlerArguments(callbackName: string, serType: string, data: string, libs: Libraries): Result<(Value, Value)> {
    var decoded :- Deserialize(libs, serType, data);
    if StartsWith(callbackName, RETURN_CALL_PREFIX) || serType == SER_TYPE_STRING || serType == SER_TYPE_NONE then
      Ok((VTuple([decoded]), VDict([])))
    else
      Unpack2(decoded)
  }

  /** Return calls and the 'str' and 'none' types pass the decoded value as the only positional argument. */
  lemma SingleArgumentModes(callbackName: string, serType: string, data: string, libs: Libraries)
    requires StartsWith(callbackName, RETURN_CALL_PREFIX) || serType == SER_TYPE_STRING || serType == SER_TYPE_NONE
    ensures Deserialize(libs, serType, data).Ok? ==>
      HandlerArguments(callbackName, serType, data, libs) == Ok((VTuple([Deserialize(libs, serType, data).value]), VDict([])))
    ensures Deserialize(libs, serType, data).Err? ==>
      HandlerArguments(callbackName, serType, data, libs) == Err(Deserialize(libs, serType, data).error)
  {
  }

  /** Other calls unpack the decoded value as (args, kwargs). */
  lemma UnpackedArgumentModes(callbackName: string, serType: string, data: string, libs: Libraries, args: Value, kwargs: Value)
    requires !StartsWith(callbackName, RETURN_CALL_PREFIX) && serType != SER_TYPE_STRING && serType != SER_TYPE_NONE
    requires Deserialize(libs, serType, data) == Ok(VTuple([args, kwargs]))
    ensures HandlerArguments(callbackName, serType, data, libs) == Ok((args, kwargs))
  {
  }

  /**
   * onNotification, as a function of the registry before it: the registry
   * after it, and what it did.
   */
  function DispatchSpec(slots: Registry, sender: string, methodName: string, data: string, libs: Libraries): (Registry, Dispatch) {
    if !EndsWith(sender, SENDER_ID_SUFFIX) then (slots, Ignored)
    else
      var addonId := SenderAddonId(sender);
      if addonId !in slots then (slots, Ignored)
      else
        var fields := Split(methodName, '.');
        if |fields| != 4 then (slots, Failed(INTERNAL_ERROR))
        else if fields[1] !in slots[addonId] then (slots, Ignored)
        else
          var slot := slots[addonId][fields[1]];
          var updated := WithSlot(slots, addonId, fields[1], slot.(serTypeReturn := Some(fields[3])));
          match HandlerArguments(fields[1], fields[2], data, libs)
          case Err(e) => (updated, Failed(e))
          case Ok((args, kwargs)) => (updated, Invoked(slot.callbackFunc, args, kwargs, slot.runThreaded))
  }

  /** The three ways a notification is ignored, and that nothing else is ignored. */
  lemma DispatchIgnoredIff(slots: Registry, sender: string, methodName: string, data: string, libs: Libraries)
    ensures DispatchSpec(slots, sender, methodName, data, libs).1 == Ignored ==>
              DispatchSpec(slots, sender, methodName, data, libs).0 == slots
    ensures DispatchSpec(slots, sender, methodName, data, libs).1 == Ignored <==>
              || !EndsWith(sender, SENDER_ID_SUFFIX)
              || SenderAddonId(sender) !in slots
              || (|Split(methodName, '.')| == 4 && Split(methodName, '.')[1] !in slots[SenderAddonId(sender)])
  {
  }

  /** A method that does not split into four fields is refused, for a known add-on. */
  lemma DispatchMalformedMethod(slots: Registry, sender: string, methodName: string, data: string, libs: Libraries)
    requires EndsWith(sender, SENDER_ID_SUFFIX) && SenderAddonId(sender) in slots
    requires Count(methodName, '.') != 3
    ensures DispatchSpec(slots, sender, methodName, data, libs) == (slots, Failed(INTERNAL_ERROR))
  {
  }

  /**
   * On a hit the slot's ser_type_return is overwritten with the fourth field
   * first, whether or not decoding the data then fails.
   */
  lemma DispatchHit(slots: Registry, sender: string, methodName: string, data: string, libs: Libraries)
    requires EndsWith(sender, SENDER_ID_SUFFIX)
    requires |Split(methodName, '.')| == 4
    requires Lookup(slots, SenderAddonId(sender), Split(methodName, '.')[1]).Some?
    ensures var addonId, fields := SenderAddonId(sender), Split(methodName, '.');
            var slot := Lookup(slots, addonId, fields[1]).value;
            var (after, d) := DispatchSpec(slots, sender, methodName, data, libs);
            && after == WithSlot(slots, addonId, fields[1], slot.(serTypeReturn := Some(fields[3])))
            && Lookup(after, addonId, fields[1]).value.serTypeReturn == Some(fields[3])
            && d == match HandlerArguments(fields[1], fields[2], data, libs)
                    case Err(e) => Failed(e)
                    case Ok((args, kwargs)) => Invoked(slot.callbackFunc, args, kwargs, slot.runThreaded)
  {
  }

  /** "<callback_name>.<ser_type>.<ser_type_return>", the message of a call. */
  function CallMessage(callbackName: string, serType: string, serTypeReturn: string): string {
    callbackName + "." + serType + "." + serTypeReturn
  }

  /** The method Kodi builds around a call message splits back into its three parts. */
  lemma CallMethodSplits(callbackName: string, serType: string, serTypeReturn: string)
    requires '.' !in callbackName && '.' !in serType && '.' !in serTypeReturn
    ensures Split(OTHER_PREFIX + CallMessage(callbackName, serType, serTypeReturn), '.')
            == ["Other", callbackName, serType, serTypeReturn]
  {
    var fields := ["Other", callbackName, serType, serTypeReturn];
    assert Join(fields[3..], '.') == serTypeReturn;
    assert Join(fields[2..], '.') == serType + "." + serTypeReturn by {
      assert fields[2..][1..] == fields[3..];
    }
    assert Join(fields[1..], '.') == callbackName + "." + serType + "." + serTypeReturn by {
      assert fields[1..][1..] == fields[2..];
    }
    assert Join(fields, '.') == OTHER_PREFIX + CallMessage(callbackName, serType, serTypeReturn);
    SplitJoin(fields, '.');
  }

  /**
   * _make_signal_call as the notification it broadcasts, or the error it
   * raises (any failure before the broadcast is reported as the internal error).
   */
  function SignalNotification(libs: Libraries, hostAddonId: string, callbackName: string, data: Value,
                              addonId: Option<string>, serType: string, serTypeReturn: string): (r: Result<Notification>)
    ensures r.Ok? <==> Serialize(libs, serType, data).Ok?
    ensures r.Err? ==> r.error == INTERNAL_ERROR
  {
    match Serialize(libs, serType, data)
    case Err(_) => Err(INTERNAL_ERROR)
    case Ok(payload) =>
      Ok(Notification(OrElse(addonId, hostAddonId) + SENDER_ID_SUFFIX,
                      OTHER_PREFIX + CallMessage(callbackName, serType, serTypeReturn), payload))
  }

  /** The data a CallHandler sends: (args, kwargs). */
  function CallData(args: seq<Value>, kwargs: seq<(string, Value)>): Value {
    VTuple([VTuple(args), VDict(kwargs)])
  }

  /** What dispatching a hit does, given the handler arguments. */
  function HitDispatch(slot: Slot, arguments: Result<(Value, Value)>): Dispatch {
    match arguments
    case Err(e) => Failed(e)
    case Ok((args, kwargs)) => Invoked(slot.callbackFunc, args, kwargs, slot.runThreaded)
  }

  /** A well-formed call notification for a registered slot is a hit on that slot. */
  lemma DispatchOfCall(slots: Registry, addonId: string, callbackName: string, serType: string,
                       serTypeReturn: string, data: string, libs: Libraries)
    requires '.' !in callbackName && '.' !in serType && '.' !in serTypeReturn
    requires Lookup(slots, addonId, callbackName).Some?
    ensures var slot := Lookup(slots, addonId, callbackName).value;
            DispatchSpec(slots, addonId + SENDER_ID_SUFFIX, OTHER_PREFIX + CallMessage(callbackName, serType, serTypeReturn), data, libs)
            == (WithSlot(slots, addonId, callbackName, slot.(serTypeReturn := Some(serTypeReturn))),
                HitDispatch(slot, HandlerArguments(callbackName, serType, data, libs)))
  {
    SenderAddonIdRecovers(addonId);
    CallMethodSplits(callbackName, serType, serTypeReturn);
  }

  /** The notification _make_signal_call broadcasts for a payload that serialises. */
  lemma SignalNotificationOf(libs: Libraries, hostAddonId: string, callbackName: string, data: Value,
                             addonId: string, serType: string, serTypeReturn: string)
    requires addonId != ""
    requires Serialize(libs, serType, data).Ok?
    ensures SignalNotification(libs, hostAddonId, callbackName, data, Some(addonId), serType, serTypeReturn)
            == Ok(Notification(addonId + SENDER_ID_SUFFIX, OTHER_PREFIX + CallMessage(callbackName, serType, serTypeReturn),
                               Serialize(libs, serType, data).value))
  {
  }

  lemma NoDotInObjectTypes(serType: string)
    requires serType == SER_TYPE_PICKLE || serType == SER_TYPE_JSON
    ensures '.' !in serType
  {
  }

  /**
   * A call reaches the callee's slot: for object types the callee gets the
   * caller's arguments (as the codec carries them) and the slot learns the
   * return type.
   */
  lemma CallReachesCallee(libs: Libraries, hostAddonId: string, slots: Registry, addonId: string,
                          callbackName: string, serType: string, serTypeReturn: string,
                          args: seq<Value>, kwargs: seq<(string, Value)>)
    requires serType == SER_TYPE_PICKLE || serType == SER_TYPE_JSON
    requires serType == SER_TYPE_PICKLE ==> PickleLawful(libs.pickle) && libs.pickle.dumps(CallData(args, kwargs)).Ok?
    requires serType == SER_TYPE_JSON ==> JsonLawful(libs.json) && libs.json.dumps(CallData(args, kwargs)).Ok?
    requires addonId != "" && '.' !in callbackName && '.' !in serTypeReturn
    requires NeedsNoJsonEscape(addonId) && NeedsNoJsonEscape(callbackName) && NeedsNoJsonEscape(serTypeReturn)
    requires !StartsWith(callbackName, RETURN_CALL_PREFIX)
    requires Lookup(slots, addonId, callbackName).Some?
    ensures var n := SignalNotification(libs, hostAddonId, callbackName, CallData(args, kwargs), Some(addonId), serType, serTypeReturn);
            var slot := Lookup(slots, addonId, callbackName).value;
            && n.Ok?
            && n.value.sender == addonId + SENDER_ID_SUFFIX
            && DispatchSpec(slots, n.value.sender, n.value.methodName, n.value.data, libs)
               == (WithSlot(slots, addonId, callbackName, slot.(serTypeReturn := Some(serTypeReturn))),
                   Invoked(slot.callbackFunc, Transported(serType, VTuple(args)), Transported(serType, VDict(kwargs)), slot.runThreaded))
  {
    var value := CallData(args, kwargs);
    CallArguments(libs, callbackName, serType, args, kwargs);
    var payload := Serialize(libs, serType, value).value;
    SignalNotificationOf(libs, hostAddonId, callbackName, value, addonId, serType, serTypeReturn);
    NoDotInObjectTypes(serType);
    DispatchOfCall(slots, addonId, callbackName, serType, serTypeReturn, payload, libs);
  }

  /** The callee is handed the caller's (args, kwargs) as the codec carries them. */
  lemma CallArguments(libs: Libraries, callbackName: string, serType: string,
                      args: seq<Value>, kwargs: seq<(string, Value)>)
    requires serType == SER_TYPE_PICKLE || serType == SER_TYPE_JSON
    requires serType == SER_TYPE_PICKLE ==> PickleLawful(libs.pickle) && libs.pickle.dumps(CallData(args, kwargs)).Ok?
    requires serType == SER_TYPE_JSON ==> JsonLawful(libs.json) && libs.json.dumps(CallData(args, kwargs)).Ok?
    requires !StartsWith(callbackName, RETURN_CALL_PREFIX)
    ensures Serialize(libs, serType, CallData(args, kwargs)).Ok?
    ensures HandlerArguments(callbackName, serType, Serialize(libs, serType, CallData(args, kwargs)).value, libs)
            == Ok((Transported(serType, VTuple(args)), Transported(serType, VDict(kwargs))))
  {
    ObjectModeRoundTrip(libs, serType, CallData(args, kwargs));
    UnpackCallData(serType, args, kwargs);
  }

  /** The (args, kwargs) pair survives the codec as a pair. */
  lemma UnpackCallData(serType: string, args: seq<Value>, kwargs: seq<(string, Value)>)
    ensures Unpack2(Transported(serType, CallData(args, kwargs)))
            == Ok((Transported(serType, VTuple(args)), Transported(serType, VDict(kwargs))))
  {
    if serType == SER_TYPE_JSON {
      var pair := [VTuple(args), VDict(kwargs)];
      assert JsonNormalSeq(pair) == [JsonNormal(pair[0])] + JsonNormalSeq(pair[1..]);
      assert JsonNormalSeq(pair[1..]) == [JsonNormal(pair[1])] + JsonNormalSeq([]);
    }
  }

  lemma NoDotInReturnName(callbackName: string)
    requires '.' !in callbackName
    ensures '.' !in RETURN_CALL_PREFIX + callbackName
    ensures StartsWith(RETURN_CALL_PREFIX + callbackName, RETURN_CALL_PREFIX)
  {
    forall i | 0 <= i < |RETURN_CALL_PREFIX + callbackName|
      ensures (RETURN_CALL_PREFIX + callbackName)[i] != '.'
    {
      if i >= |RETURN_CALL_PREFIX| {
        assert (RETURN_CALL_PREFIX + callbackName)[i] == callbackName[i - |RETURN_CALL_PREFIX|];
      }
    }
    StartsWithConcat(RETURN_CALL_PREFIX, callbackName);
  }

  /**
   * A return call reaches the caller's return slot on the same add-on id, and
   * the decoded data is the single positional argument.
   */
  lemma ReturnReachesCaller(libs: Libraries, hostAddonId: string, slots: Registry, addonId: string,
                            callbackName: string, serType: string, data: Value)
    requires serType == SER_TYPE_PICKLE || serType == SER_TYPE_JSON
    requires serType == SER_TYPE_PICKLE ==> PickleLawful(libs.pickle) && libs.pickle.dumps(data).Ok?
    requires serType == SER_TYPE_JSON ==> JsonLawful(libs.json) && libs.json.dumps(data).Ok?
    requires addonId != "" && '.' !in callbackName
    requires NeedsNoJsonEscape(addonId) && NeedsNoJsonEscape(callbackName)
    requires Lookup(slots, addonId, RETURN_CALL_PREFIX + callbackName).Some?
    ensures var n := SignalNotification(libs, hostAddonId, RETURN_CALL_PREFIX + callbackName, data, Some(addonId), serType, SER_TYPE_NONE);
            var slot := Lookup(slots, addonId, RETURN_CALL_PREFIX + callbackName).value;
            && n.Ok?
            && DispatchSpec(slots, n.value.sender, n.value.methodName, n.value.data, libs)
               == (WithSlot(slots, addonId, RETURN_CALL_PREFIX + callbackName, slot.(serTypeReturn := Some(SER_TYPE_NONE))),
                   Invoked(slot.callbackFunc, VTuple([Transported(serType, data)]), VDict([]), slot.runThreaded))
  {
    var name := RETURN_CALL_PREFIX + callbackName;
    ObjectModeRoundTrip(libs, serType, data);
    var payload := Serialize(libs, serType, data).value;
    SignalNotificationOf(libs, hostAddonId, name, data, addonId, serType, SER_TYPE_NONE);
    NoDotInObjectTypes(serType);
    NoDotInReturnName(callbackName);
    DispatchOfCall(slots, addonId, name, serType, SER_TYPE_NONE, payload, libs);
    assert HandlerArguments(name, serType, payload, libs) == Ok((VTuple([Transported(serType, data)]), VDict([])));
  }

  /**
   * A 'str' call of one string and no keyword arguments reaches the callee's
   * slot with that string, whatever characters it holds, as the only argument.
   */
  lemma StrCallReachesCallee(libs: Libraries, hostAddonId: string, slots: Registry, addonId: string,
                             callbackName: string, serTypeReturn: string, s: string)
    requires addonId != "" && '.' !in callbackName && '.' !in serTypeReturn
    requires NeedsNoJsonEscape(addonId) && NeedsNoJsonEscape(callbackName) && NeedsNoJsonEscape(serTypeReturn)
    requires Lookup(slots, addonId, callbackName).Some?
    ensures var n := SignalNotification(libs, hostAddonId, callbackName, CallData([VStr(s)], []), Some(addonId), SER_TYPE_STRING, serTypeReturn);
            var slot := Lookup(slots, addonId, callbackName).value;
            && n.Ok?
            && n.value.sender == addonId + SENDER_ID_SUFFIX
            && DispatchSpec(slots, n.value.sender, n.value.methodName, n.value.data, libs)
               == (WithSlot(slots, addonId, callbackName, slot.(serTypeReturn := Some(serTypeReturn))),
                   Invoked(slot.callbackFunc, VTuple([VStr(s)]), VDict([]), slot.runThreaded))
  {
    StrModeTupleShape(libs, [VStr(s)], []);
    StrModeRoundTrip(libs, s);
    var payload := Base64.Encode(Utf8.Encode(s));
    SignalNotificationOf(libs, hostAddonId, callbackName, CallData([VStr(s)], []), addonId, SER_TYPE_STRING, serTypeReturn);
    DispatchOfCall(slots, addonId, callbackName, SER_TYPE_STRING, serTypeReturn, payload, libs);
    SingleArgumentModes(callbackName, SER_TYPE_STRING, payload, libs);
  }

  /**
   * A 'str' call with keyword arguments, with more than one argument, or with
   * one that is not a string is refused before anything is broadcast.
   */
  lemma StrCallRefused(libs: Libraries, hostAddonId: string, callbackName: string, addonId: Option<string>,
                       serTypeReturn: string, args: seq<Value>, kwargs: seq<(string, Value)>)
    requires kwargs != [] || |args| > 1 || (|args| == 1 && !args[0].VStr?)
    ensures SignalNotification(libs, hostAddonId, callbackName, CallData(args, kwargs), addonId, SER_TYPE_STRING, serTypeReturn)
            == Err(INTERNAL_ERROR)
  {
    StrModeTupleShape(libs, args, kwargs);
  }

  /** A 'none' call reaches the callee's slot with None as the only argument, whatever was sent. */
  lemma NoneCallReachesCallee(libs: Libraries, hostAddonId: string, slots: Registry, addonId: string,
                              callbackName: string, serTypeReturn: string,
                              args: seq<Value>, kwargs: seq<(string, Value)>)
    requires addonId != "" && '.' !in callbackName && '.' !in serTypeReturn
    requires NeedsNoJsonEscape(addonId) && NeedsNoJsonEscape(callbackName) && NeedsNoJsonEscape(serTypeReturn)
    requires Lookup(slots, addonId, callbackName).Some?
    ensures var n := SignalNotification(libs, hostAddonId, callbackName, CallData(args, kwargs), Some(addonId), SER_TYPE_NONE, serTypeReturn);
            var slot := Lookup(slots, addonId, callbackName).value;
            && n.Ok?
            && n.value.sender == addonId + SENDER_ID_SUFFIX
            && DispatchSpec(slots, n.value.sender, n.value.methodName, n.value.data, libs)
               == (WithSlot(slots, addonId, callbackName, slot.(serTypeReturn := Some(serTypeReturn))),
                   Invoked(slot.callbackFunc, VTuple([VNone]), VDict([]), slot.runThreaded))
  {
    NoneModeIgnoresData(libs, CallData(args, kwargs), "");
    SignalNotificationOf(libs, hostAddonId, callbackName, CallData(args, kwargs), addonId, SER_TYPE_NONE, serTypeReturn);
    DispatchOfCall(slots, addonId, callbackName, SER_TYPE_NONE, serTypeReturn, "", libs);
    SingleArgumentModes(callbackName, SER_TYPE_NONE, "", libs);
  }

  /** A 'str' return of a string reaches the caller's return slot as that string alone. */
  lemma StrReturnReachesCaller(libs: Libraries, hostAddonId: string, slots: Registry, addonId: string,
                               callbackName: string, s: string)
    requires addonId != "" && '.' !in callbackName
    requires NeedsNoJsonEscape(addonId) && NeedsNoJsonEscape(callbackName)
    requires Lookup(slots, addonId, RETURN_CALL_PREFIX + callbackName).Some?
    ensures var n := SignalNotification(libs, hostAddonId, RETURN_CALL_PREFIX + callbackName, VStr(s), Some(addonId), SER_TYPE_STRING, SER_TYPE_NONE);
            var slot := Lookup(slots, addonId, RETURN_CALL_PREFIX + callbackName).value;
            && n.Ok?
            && DispatchSpec(slots, n.value.sender, n.value.methodName, n.value.data, libs)
               == (WithSlot(slots, addonId, RETURN_CALL_PREFIX + callbackName, slot.(serTypeReturn := Some(SER_TYPE_NONE))),
                   Invoked(slot.callbackFunc, VTuple([VStr(s)]), VDict([]), slot.runThreaded))
  {
    var name := RETURN_CALL_PREFIX + callbackName;
    StrModeRoundTrip(libs, s);
    var payload := Base64.Encode(Utf8.Encode(s));
    SignalNotificationOf(libs, hostAddonId, name, VStr(s), addonId, SER_TYPE_STRING, SER_TYPE_NONE);
    NoDotInReturnName(callbackName);
    DispatchOfCall(slots, addonId, name, SER_TYPE_STRING, SER_TYPE_NONE, payload, libs);
    SingleArgumentModes(name, SER_TYPE_STRING, payload, libs);
  }

  /** A 'none' return reaches the caller's return slot as None, whatever was returned. */
  lemma NoneReturnReachesCaller(libs: Libraries, hostAddonId: string, slots: Registry, addonId: string,
                                callbackName: string, data: Value)
    requires addonId != "" && '.' !in callbackName
    requires NeedsNoJsonEscape(addonId) && NeedsNoJsonEscape(callbackName)
    requires Lookup(slots, addonId, RETURN_CALL_PREFIX + callbackName).Some?
    ensures var n := SignalNotification(libs, hostAddonId, RETURN_CALL_PREFIX + callbackName, data, Some(addonId), SER_TYPE_NONE, SER_TYPE_NONE);
            var slot := Lookup(slots, addonId, RETURN_CALL_PREFIX + callbackName).value;
            && n.Ok?
            && DispatchSpec(slots, n.value.sender, n.value.methodName, n.value.data, libs)
               == (WithSlot(slots, addonId, RETURN_CALL_PREFIX + callbackName, slot.(serTypeReturn := Some(SER_TYPE_NONE))),
                   Invoked(slot.callbackFunc, VTuple([VNone]), VDict([]), slot.runThreaded))
  {
    var name := RETURN_CALL_PREFIX + callbackName;
    NoneModeIgnoresData(libs, data, "");
    SignalNotificationOf(libs, hostAddonId, name, data, addonId, SER_TYPE_NONE, SER_TYPE_NONE);
    NoDotInReturnName(callbackName);
    DispatchOfCall(slots, addonId, name, SER_TYPE_NONE, SER_TYPE_NONE, "", libs);
    SingleArgumentModes(name, SER_TYPE_NONE, "", libs);
  }

  /** CallReceiver: the Monitor that receives the calls of one add-on process. */
  class CallReceiver {
    var slots: Registry
    var useMultithread: bool

    constructor()
      ensures slots == map[] && !useMultithread
    {
      slots := map[];
      useMultithread := false;
    }

    method RegisterSlot(callbackName: string, callback: Callback, addonId: string,
                        serTypeReturn: Option<string> := None, useThread: Option<bool> := None)
      modifies this
      ensures slots == WithSlot(old(slots), addonId, callbackName,
                                Slot(callback, serTypeReturn, if useThread.None? then old(useMultithread) else useThread.value))
      ensures useMultithread == old(useMultithread)
    {
      if addonId !in slots {
        slots := slots[addonId := map[]];
      }
      var runThreaded := if useThread.None? then useMultithread else useThread.value;
      slots := slots[addonId := slots[addonId][callbackName := Slot(callback, serTypeReturn, runThreaded)]];
    }

    method UnregisterSlot(callbackName: string, addonId: string)
      modifies this
      ensures slots == WithoutSlot(old(slots), addonId, callbackName)
      ensures useMultithread == old(useMultithread)
    {
      if addonId !in slots {
        return;
      }
      if callbackName !in slots[addonId] {
        return;
      }
      slots := slots[addonId := slots[addonId] - {callbackName}];
    }

    method UnregisterSlots(addonId: Option<string> := None)
      modifies this
      ensures slots == WithoutAddon(old(slots), addonId)
      ensures useMultithread == old(useMultithread)
    {
      if addonId.None? {
        slots := map[];
      } else if addonId.value in slots {
        slots := slots - {addonId.value};
      }
    }

    /** onNotification(sender, method, data); the handler call itself is the Invoked result. */
    method OnNotification(sender: string, methodName: string, data: string, libs: Libraries) returns (d: Dispatch)
      modifies this
      ensures (slots, d) == DispatchSpec(old(slots), sender, methodName, data, libs)
      ensures useMultithread == old(useMultithread)
    {
      if !EndsWith(sender, SENDER_ID_SUFFIX) {
        return Ignored;
      }
      var addonId := SenderAddonId(sender);
      if addonId !in slots {
        return Ignored;
      }
      var fields := Split(methodName, '.');
      if |fields| != 4 {
        return Failed(INTERNAL_ERROR);
      }
      var callbackName, serType, serTypeReturn := fields[1], fields[2], fields[3];
      if callbackName !in slots[addonId] {
        return Ignored;
      }
      slots := slots[addonId := slots[addonId][callbackName := slots[addonId][callbackName].(serTypeReturn := Some(serTypeReturn))]];
      var func := slots[addonId][callbackName].callbackFunc;
      var arguments := HandlerArguments(callbackName, serType, data, libs);
      if arguments.Err? {
        return Failed(arguments.error);
      }
      var (args, kwargs) := arguments.value;
      d := Invoked(func, args, kwargs, slots[addonId][callbackName].runThreaded);
    }
  }

  /** _make_signal_call: broadcast one call, or raise the internal error. */
  method SendCall(bus: Bus, libs: Libraries, hostAddonId: string, callbackName: string, data: Value := VNone,
                  addonId: Option<string> := None, serType: string := SER_TYPE_PICKLE,
                  serTypeReturn: string := SER_TYPE_NONE) returns (raised: Option<Exc>)
    modifies bus
    ensures Sent(old(bus.log), bus.log,
                 SignalNotification(libs, hostAddonId, callbackName, data, addonId, serType, serTypeReturn), raised)
  {
    var payload := Serialize(libs, serType, data);
    if payload.Err? {
      return Some(INTERNAL_ERROR);
    }
    bus.NotifyAll(OrElse(addonId, hostAddonId) + SENDER_ID_SUFFIX, CallMessage(callbackName, serType, serTypeReturn), payload.value);
    raised := None;
  }

  /** How the connector hands the end of a wait to its caller. */
  function ConnectorOutcome(exit: Exit): (r: CallOutcome)
    ensures exit.Fulfilled? && exit.data.VExc? ==> r == Raised(exit.data.exc)
    ensures exit.Fulfilled? && !exit.data.VExc? ==> r == Returned(exit.data)
    ensures exit.TimedOut? ==> r.Raised? && r.error.kind == WaitTimeoutError
    ensures exit.Aborted? ==> r.Raised? && r.error.kind == OperationAbortedError
    ensures r.Raised? && IsAddonConnectorException(r.error.kind) && !exit.Fulfilled? ==> exit.TimedOut? || exit.Aborted?
  {
    match exit
    case Fulfilled(v) => if v.VExc? then Raised(v.exc) else Returned(v)
    case TimedOut => Raised(Exc(WaitTimeoutError, ""))
    case Aborted => Raised(Exc(OperationAbortedError, ""))
    case StillWaiting => Blocked
  }

  /**
   * The registry after onNotification dispatched a return call to the slot
   * name of addonId: make_return_call and call_func send it with the return
   * type 'none', which the dispatcher writes into that slot before calling it.
   */
  function ReturnDispatched(slots: Registry, addonId: string, name: string): (r: Registry)
    ensures Lookup(slots, addonId, name).Some? ==>
              Lookup(r, addonId, name) == Some(Lookup(slots, addonId, name).value.(serTypeReturn := Some(SER_TYPE_NONE)))
    ensures Lookup(slots, addonId, name).None? ==> r == slots
    ensures forall a, n | a != addonId || n != name :: Lookup(r, a, n) == Lookup(slots, a, n)
  {
    match Lookup(slots, addonId, name)
    case None => slots
    case Some(slot) => WithSlot(slots, addonId, name, slot.(serTypeReturn := Some(SER_TYPE_NONE)))
  }

  /** Dispatching any return call that serialises leaves the registry as ReturnDispatched says. */
  lemma ReturnDispatchWrites(libs: Libraries, hostAddonId: string, slots: Registry, addonId: string,
                             callbackName: string, serType: string, data: Value)
    requires addonId != "" && '.' !in callbackName && '.' !in serType
    requires Serialize(libs, serType, data).Ok?
    requires Lookup(slots, addonId, RETURN_CALL_PREFIX + callbackName).Some?
    ensures var n := SignalNotification(libs, hostAddonId, RETURN_CALL_PREFIX + callbackName, data, Some(addonId), serType, SER_TYPE_NONE);
            && n.Ok?
            && DispatchSpec(slots, n.value.sender, n.value.methodName, n.value.data, libs).0
               == ReturnDispatched(slots, addonId, RETURN_CALL_PREFIX + callbackName)
  {
    var name := RETURN_CALL_PREFIX + callbackName;
    SignalNotificationOf(libs, hostAddonId, name, data, addonId, serType, SER_TYPE_NONE);
    NoDotInReturnName(callbackName);
    DispatchOfCall(slots, addonId, name, serType, SER_TYPE_NONE, Serialize(libs, serType, data).value, libs);
  }

  /** CallHandler: one blocking call and its temporary return slot. */
  class CallHandler {
    const config: CallConfig
    const receiver: CallReceiver
    var callbackData: Value
    var isCallbackReceived: bool
    /** The exception __init__ raised after registering the return slot, if any. */
    var initError: Option<Exc>

    constructor(config: CallConfig, args: seq<Value>, kwargs: seq<(string, Value)>,
                receiver: CallReceiver, bus: Bus, libs: Libraries, hostAddonId: string)
      modifies receiver, bus
      ensures this.config == config && this.receiver == receiver
      ensures callbackData == VNone && !isCallbackReceived
      ensures receiver.slots == WithSlot(old(receiver.slots), config.addonId, RETURN_CALL_PREFIX + config.callbackName,
                                         Slot(BoundReturn(this), Some(config.serTypeReturn), false))
      ensures receiver.useMultithread == old(receiver.useMultithread)
      ensures Sent(old(bus.log), bus.log,
                   SignalNotification(libs, hostAddonId, config.callbackName, CallData(args, kwargs),
                                      Some(config.addonId), config.serType, config.serTypeReturn),
                   initError)
    {
      this.config := config;
      this.receiver := receiver;
      callbackData := VNone;
      isCallbackReceived := false;
      initError := None;
      new;
      receiver.RegisterSlot(RETURN_CALL_PREFIX + config.callbackName, BoundReturn(this), config.addonId,
                            Some(config.serTypeReturn), Some(false));
      initError := SendCall(bus, libs, hostAddonId, config.callbackName, CallData(args, kwargs),
                            Some(config.addonId), config.serType, config.serTypeReturn);
    }

    /** return_callback: the latest data wins. */
    method ReturnCallback(data: Value)
      modifies this
      ensures isCallbackReceived && callbackData == data
      ensures initError == old(initError)
    {
      callbackData := data;
      isCallbackReceived := true;
    }

    /**
     * The receiver dispatching a return call to this handler: the 'none' it
     * writes into the return slot (see ReturnDispatchWrites), then return_callback.
     */
    method DeliverReturn(data: Value)
      modifies this, receiver
      ensures receiver.slots == ReturnDispatched(old(receiver.slots), config.addonId, RETURN_CALL_PREFIX + config.callbackName)
      ensures receiver.useMultithread == old(receiver.useMultithread)
      ensures isCallbackReceived && callbackData == data
      ensures initError == old(initError)
    {
      receiver.slots := ReturnDispatched(receiver.slots, config.addonId, RETURN_CALL_PREFIX + config.callbackName);
      ReturnCallback(data);
    }

    /**
     * The polling loop of wait_rpc_return_call, without its cleanup; a
     * delivery is the dispatch of the answer to the return slot.
     */
    method AwaitReturn(endTime: real, polls: seq<Poll>) returns (exit: Exit)
      modifies this, receiver
      ensures exit == AwaitSpec(old(isCallbackReceived), old(callbackData), endTime, polls)
      ensures exit.Fulfilled? ==> isCallbackReceived && callbackData == exit.data
      ensures !exit.Fulfilled? ==> !isCallbackReceived
      ensures receiver.slots == if isCallbackReceived && !old(isCallbackReceived)
                                then ReturnDispatched(old(receiver.slots), config.addonId, RETURN_CALL_PREFIX + config.callbackName)
                                else old(receiver.slots)
      ensures receiver.useMultithread == old(receiver.useMultithread)
      ensures initError == old(initError)
    {
      var i := 0;
      while !isCallbackReceived
        invariant 0 <= i <= |polls|
        invariant AwaitSpec(isCallbackReceived, callbackData, endTime, polls[i..])
                  == AwaitSpec(old(isCallbackReceived), old(callbackData), endTime, polls)
        invariant receiver.slots == if isCallbackReceived && !old(isCallbackReceived)
                                    then ReturnDispatched(old(receiver.slots), config.addonId, RETURN_CALL_PREFIX + config.callbackName)
                                    else old(receiver.slots)
        invariant old(isCallbackReceived) ==> isCallbackReceived
        invariant receiver.useMultithread == old(receiver.useMultithread)
        invariant initError == old(initError)
        decreases |polls| - i
      {
        if i == |polls| {
          return StillWaiting;
        }
        var p := polls[i];
        assert polls[i..][0] == p && polls[i..][1..] == polls[i + 1..];
        if p.now > endTime {
          return TimedOut;
        }
        if p.abortRequested {
          return Aborted;
        }
        if p.delivered.Some? {
          DeliverReturn(p.delivered.value);
        }
        i := i + 1;
      }
      return Fulfilled(callbackData);
    }

    /** wait_rpc_return_call, as written; start is the clock reading when it is called. */
    method WaitRpcReturnCall(start: real, polls: seq<Poll>) returns (r: CallOutcome)
      modifies this, receiver
      ensures var exit := AwaitSpec(old(isCallbackReceived), old(callbackData), start + config.timeoutSecs, polls);
              var answered := if exit.Fulfilled? && !old(isCallbackReceived)
                              then ReturnDispatched(old(receiver.slots), config.addonId, RETURN_CALL_PREFIX + config.callbackName)
                              else old(receiver.slots);
              && r == ConnectorOutcome(exit)
              && receiver.slots == Cleanup(answered, exit, config.callbackName, config.addonId)
      ensures receiver.useMultithread == old(receiver.useMultithread)
    {
      var exit := AwaitReturn(start + config.timeoutSecs, polls);
      if exit.Fulfilled? || exit.TimedOut? {
        receiver.UnregisterSlot(config.callbackName, config.addonId);
      }
      r := ConnectorOutcome(exit);
    }

    /** wait_rpc_return_call unregistering the return slot it waited on. */
    method WaitRpcReturnCallCorrected(start: real, polls: seq<Poll>) returns (r: CallOutcome)
      modifies this, receiver
      ensures var exit := AwaitSpec(old(isCallbackReceived), old(callbackData), start + config.timeoutSecs, polls);
              var answered := if exit.Fulfilled? && !old(isCallbackReceived)
                              then ReturnDispatched(old(receiver.slots), config.addonId, RETURN_CALL_PREFIX + config.callbackName)
                              else old(receiver.slots);
              && r == ConnectorOutcome(exit)
              && receiver.slots == Cleanup(answered, exit, RETURN_CALL_PREFIX + config.callbackName, config.addonId)
      ensures receiver.useMultithread == old(receiver.useMultithread)
    {
      var exit := AwaitReturn(start + config.timeoutSecs, polls);
      if exit.Fulfilled? || exit.TimedOut? {
        receiver.UnregisterSlot(RETURN_CALL_PREFIX + config.callbackName, config.addonId);
      }
      r := ConnectorOutcome(exit);
    }
  }

  /** The exception call_func catches: one from the function, or the KeyError of the slot lookup. */
  function CaughtByEnvelope(env: Envelope, funcResult: Result<Value>, slots: Registry): (c: Option<Exc>)
    ensures c.None? <==> funcResult.Ok? && Lookup(slots, env.addonId, env.callbackName).Some?
    ensures funcResult.Err? ==> c == Some(funcResult.error)
  {
    if funcResult.Err? then Some(funcResult.error)
    else if env.addonId !in slots then Some(Exc(KeyError, env.addonId))
    else if env.callbackName !in slots[env.addonId] then Some(Exc(KeyError, env.callbackName))
    else None
  }

  /**
   * call_func as written: the data and type of the return call, or the error
   * raised while pickling a caught exception.  A caught exception is pickled
   * here and then pickled again by the return call.
   */
  function EnvelopeReturnData(env: Envelope, funcResult: Result<Value>, slots: Registry, libs: Libraries)
    : Result<(Value, Option<string>)>
  {
    match CaughtByEnvelope(env, funcResult, slots)
    case None => Ok((funcResult.value, slots[env.addonId][env.callbackName].serTypeReturn))
    case Some(exc) =>
      var text :- Serialize(libs, SER_TYPE_PICKLE, VExc(exc));
      Ok((VStr(text), Some(SER_TYPE_PICKLE)))
  }

  /** call_func handing the caught exception itself to the return call, which pickles it once. */
  function EnvelopeReturnDataCorrected(env: Envelope, funcResult: Result<Value>, slots: Registry)
    : Result<(Value, Option<string>)>
  {
    match CaughtByEnvelope(env, funcResult, slots)
    case None => Ok((funcResult.value, slots[env.addonId][env.callbackName].serTypeReturn))
    case Some(exc) => Ok((VExc(exc), Some(SER_TYPE_PICKLE)))
  }

  /** The return call call_func makes for some return data and type. */
  function EnvelopeNotification(libs: Libraries, hostAddonId: string, env: Envelope, data: Value,
                                serTypeReturn: Option<string>): (r: Result<Notification>)
    ensures serTypeReturn.None? ==> r == Err(INTERNAL_ERROR)
    ensures serTypeReturn.Some? ==> (r.Ok? <==> Serialize(libs, serTypeReturn.value, data).Ok?)
    ensures r.Err? ==> r.error == INTERNAL_ERROR
    ensures r.Ok? && env.addonId != "" ==>
              && r.value.sender == env.addonId + SENDER_ID_SUFFIX
              && r.value.methodName == OTHER_PREFIX + CallMessage(RETURN_CALL_PREFIX + env.callbackName, serTypeReturn.value, SER_TYPE_NONE)
              && r.value.data == Serialize(libs, serTypeReturn.value, data).value
  {
    if serTypeReturn.None? then Err(INTERNAL_ERROR)
    else SignalNotification(libs, hostAddonId, RETURN_CALL_PREFIX + env.callbackName, data,
                            Some(env.addonId), serTypeReturn.value, SER_TYPE_NONE)
  }

  /** EnvelopeFuncCallback.call_func; funcResult is what the enveloped function returned or raised. */
  method CallFunc(env: Envelope, funcResult: Result<Value>, receiver: CallReceiver, bus: Bus,
                  libs: Libraries, hostAddonId: string) returns (raised: Option<Exc>)
    modifies bus
    ensures match EnvelopeReturnData(env, funcResult, receiver.slots, libs)
            case Err(e) => raised == Some(e) && bus.log == old(bus.log)
            case Ok((data, serTypeReturn)) =>
              Sent(old(bus.log), bus.log, EnvelopeNotification(libs, hostAddonId, env, data, serTypeReturn), raised)
  {
    var returned := EnvelopeReturnData(env, funcResult, receiver.slots, libs);
    if returned.Err? {
      return Some(returned.error);
    }
    var (data, serTypeReturn) := returned.value;
    if serTypeReturn.None? {
      return Some(INTERNAL_ERROR);
    }
    raised := SendCall(bus, libs, hostAddonId, RETURN_CALL_PREFIX + env.callbackName, data,
                       Some(env.addonId), serTypeReturn.value);
  }

  /** On success the return goes out with the type the slot stored from the caller's method. */
  lemma EnvelopeReturnsWithStoredType(env: Envelope, v: Value, slots: Registry, libs: Libraries)
    requires Lookup(slots, env.addonId, env.callbackName).Some?
    ensures EnvelopeReturnData(env, Ok(v), slots, libs)
            == Ok((v, Lookup(slots, env.addonId, env.callbackName).value.serTypeReturn))
  {
  }

  /**
   * As written, an exception raised by the callee reaches the caller as the
   * text of its pickle, returned instead of raised.
   */
  lemma EnvelopeExceptionReturnedAsText(env: Envelope, e: Exc, slots: Registry, libs: Libraries)
    requires PickleLawful(libs.pickle)
    requires libs.pickle.dumps(VExc(e)).Ok?
    requires libs.pickle.dumps(VStr(Serialize(libs, SER_TYPE_PICKLE, VExc(e)).value)).Ok?
    ensures var returned := EnvelopeReturnData(env, Err(e), slots, libs);
            && returned.Ok?
            && returned.value == (VStr(Serialize(libs, SER_TYPE_PICKLE, VExc(e)).value), Some(SER_TYPE_PICKLE))
            && var received := Transported(SER_TYPE_PICKLE, returned.value.0);
            && Deserialize(libs, SER_TYPE_PICKLE, Serialize(libs, SER_TYPE_PICKLE, returned.value.0).value) == Ok(received)
            && ConnectorOutcome(Fulfilled(received)) == Returned(received)
            && ConnectorOutcome(Fulfilled(received)) != Raised(e)
  {
    PickleModeRoundTrip(libs, VExc(e));
    PickleModeRoundTrip(libs, VStr(Serialize(libs, SER_TYPE_PICKLE, VExc(e)).value));
  }

  /** Corrected, an exception raised by the callee is raised at the caller. */
  lemma EnvelopeExceptionRaisedAtCaller(env: Envelope, e: Exc, slots: Registry, libs: Libraries)
    requires PickleLawful(libs.pickle)
    requires libs.pickle.dumps(VExc(e)).Ok?
    ensures var returned := EnvelopeReturnDataCorrected(env, Err(e), slots);
            && returned == Ok((VExc(e), Some(SER_TYPE_PICKLE)))
            && Deserialize(libs, SER_TYPE_PICKLE, Serialize(libs, SER_TYPE_PICKLE, VExc(e)).value) == Ok(VExc(e))
            && ConnectorOutcome(Fulfilled(VExc(e))) == Raised(e)
  {
    PickleModeRoundTrip(libs, VExc(e));
  }

  /** use_multithread(value) */
  method UseMultithread(receiver: CallReceiver, value: bool := false)
    modifies receiver
    ensures receiver.useMultithread == value && receiver.slots == old(receiver.slots)
  {
    receiver.useMultithread := value;
  }

  /** The positional arguments of one register_callback call. */
  datatype CallbackArgs = CallbackArgs(callback: Func, callbackName: Option<string>, addonId: Option<string>,
                                       handleReturnCall: bool)

  /** Where register_callback puts a slot, and what slot. */
  datatype Registration = Registration(addonId: string, callbackName: string, slot: Slot)

  function RegistrationOf(hostAddonId: string, c: CallbackArgs, useMultithread: bool): (g: Registration)
    ensures g.callbackName == (if c.callbackName.Some? && c.callbackName.value != "" then c.callbackName.value else c.callback.name)
    ensures g.addonId == (if c.addonId.Some? && c.addonId.value != "" then c.addonId.value else hostAddonId)
    ensures c.handleReturnCall ==> g.slot.callbackFunc == EnvelopeCall(Envelope(c.callback, g.callbackName, g.addonId))
    ensures !c.handleReturnCall ==> g.slot.callbackFunc == Plain(c.callback)
    ensures g.slot.serTypeReturn.None? && g.slot.runThreaded == useMultithread
  {
    var name := OrElse(c.callbackName, c.callback.name);
    var addonId := OrElse(c.addonId, hostAddonId);
    var callback := if c.handleReturnCall then EnvelopeCall(Envelope(c.callback, name, addonId)) else Plain(c.callback);
    Registration(addonId, name, Slot(callback, None, useMultithread))
  }

  method RegisterCallback(receiver: CallReceiver, hostAddonId: string, callback: Func,
                          callbackName: Option<string> := None, addonId: Option<string> := None,
                          handleReturnCall: bool := true)
    modifies receiver
    ensures var g := RegistrationOf(hostAddonId, CallbackArgs(callback, callbackName, addonId, handleReturnCall),
                                    old(receiver.useMultithread));
            receiver.slots == WithSlot(old(receiver.slots), g.addonId, g.callbackName, g.slot)
    ensures receiver.useMultithread == old(receiver.useMultithread)
  {
    var name := OrElse(callbackName, callback.name);
    var id := OrElse(addonId, hostAddonId);
    var func := if handleReturnCall then EnvelopeCall(Envelope(callback, name, id)) else Plain(callback);
    receiver.RegisterSlot(name, func, id);
  }

  /** The registry after registering list in order. */
  function RegisterAll(slots: Registry, hostAddonId: string, useMultithread: bool, list: seq<CallbackArgs>): Registry
    decreases |list|
  {
    if list == [] then slots
    else
      var g := RegistrationOf(hostAddonId, list[|list| - 1], useMultithread);
      WithSlot(RegisterAll(slots, hostAddonId, useMultithread, list[..|list| - 1]), g.addonId, g.callbackName, g.slot)
  }

  method RegisterCallbacks(receiver: CallReceiver, hostAddonId: string, list: seq<CallbackArgs>)
    modifies receiver
    ensures receiver.slots == RegisterAll(old(receiver.slots), hostAddonId, old(receiver.useMultithread), list)
    ensures receiver.useMultithread == old(receiver.useMultithread)
  {
    for i := 0 to |list|
      invariant receiver.slots == RegisterAll(old(receiver.slots), hostAddonId, old(receiver.useMultithread), list[..i])
      invariant receiver.useMultithread == old(receiver.useMultithread)
    {
      assert list[..i + 1][..i] == list[..i];
      RegisterCallback(receiver, hostAddonId, list[i].callback, list[i].callbackName, list[i].addonId,
                       list[i].handleReturnCall);
    }
    assert list[..|list|] == list;
  }

  function KeyOf(hostAddonId: string, c: CallbackArgs): (string, string) {
    (OrElse(c.addonId, hostAddonId), OrElse(c.callbackName, c.callback.name))
  }

  /** After register_callbacks, each key holds the slot of the last entry that names it. */
  lemma {:induction false} RegisterAllLastWins(slots: Registry, hostAddonId: string, useMultithread: bool,
                                               list: seq<CallbackArgs>)
    ensures forall i | 0 <= i < |list| && (forall j | i < j < |list| :: KeyOf(hostAddonId, list[j]) != KeyOf(hostAddonId, list[i])) ::
              Lookup(RegisterAll(slots, hostAddonId, useMultithread, list),
                     KeyOf(hostAddonId, list[i]).0, KeyOf(hostAddonId, list[i]).1)
              == Some(RegistrationOf(hostAddonId, list[i], useMultithread).slot)
    decreases |list|
  {
    if list != [] {
      var init := list[..|list| - 1];
      RegisterAllLastWins(slots, hostAddonId, useMultithread, init);
      var before := RegisterAll(slots, hostAddonId, useMultithread, init);
      var after := RegisterAll(slots, hostAddonId, useMultithread, list);
      var last := |list| - 1;
      var g := RegistrationOf(hostAddonId, list[last], useMultithread);
      assert after == WithSlot(before, g.addonId, g.callbackName, g.slot);
      forall i | 0 <= i < |list| && (forall j | i < j < |list| :: KeyOf(hostAddonId, list[j]) != KeyOf(hostAddonId, list[i]))
        ensures Lookup(after, KeyOf(hostAddonId, list[i]).0, KeyOf(hostAddonId, list[i]).1)
                == Some(RegistrationOf(hostAddonId, list[i], useMultithread).slot)
      {
        if i < last {
          assert init[i] == list[i];
          assert KeyOf(hostAddonId, list[last]) != KeyOf(hostAddonId, list[i]);
          assert forall j | i < j < |init| :: KeyOf(hostAddonId, init[j]) != KeyOf(hostAddonId, init[i]) by {
            assert forall j | i < j < |init| :: init[j] == list[j];
          }
        }
      }
    }
  }

  /** Names no registration uses keep the slots they had. */
  lemma {:induction false} RegisterAllKeepsOthers(slots: Registry, hostAddonId: string, useMultithread: bool,
                                                  list: seq<CallbackArgs>)
    ensures forall a, n | (forall j | 0 <= j < |list| :: KeyOf(hostAddonId, list[j]) != (a, n)) ::
              Lookup(RegisterAll(slots, hostAddonId, useMultithread, list), a, n) == Lookup(slots, a, n)
    decreases |list|
  {
    if list != [] {
      var init := list[..|list| - 1];
      RegisterAllKeepsOthers(slots, hostAddonId, useMultithread, init);
      var after := RegisterAll(slots, hostAddonId, useMultithread, list);
      var last := |list| - 1;
      forall a, n | (forall j | 0 <= j < |list| :: KeyOf(hostAddonId, list[j]) != (a, n))
        ensures Lookup(after, a, n) == Lookup(slots, a, n)
      {
        assert KeyOf(hostAddonId, list[last]) != (a, n);
        assert forall j | 0 <= j < |init| :: KeyOf(hostAddonId, init[j]) != (a, n) by {
          assert forall j | 0 <= j < |init| :: init[j] == list[j];
        }
      }
    }
  }


  method UnregisterCallback(receiver: CallReceiver, hostAddonId: string, callbackName: string,
                            addonId: Option<string> := None)
    modifies receiver
    ensures receiver.slots == WithoutSlot(old(receiver.slots), OrElse(addonId, hostAddonId), callbackName)
    ensures receiver.useMultithread == old(receiver.useMultithread)
  {
    receiver.UnregisterSlot(callbackName, OrElse(addonId, hostAddonId));
  }

  /** unregister_callbacks always names an add-on: addon_id or the host's own. */
  method UnregisterCallbacks(receiver: CallReceiver, hostAddonId: string, addonId: Option<string> := None)
    modifies receiver
    ensures receiver.slots == WithoutAddon(old(receiver.slots), Some(OrElse(addonId, hostAddonId)))
    ensures receiver.useMultithread == old(receiver.useMultithread)
  {
    receiver.UnregisterSlots(Some(OrElse(addonId, hostAddonId)));
  }

  method MakeSignalCall(bus: Bus, libs: Libraries, hostAddonId: string, config: CallConfig,
                        args: seq<Value>, kwargs: seq<(string, Value)>) returns (raised: Option<Exc>)
    modifies bus
    ensures Sent(old(bus.log), bus.log,
                 SignalNotification(libs, hostAddonId, config.callbackName, CallData(args, kwargs),
                                    Some(config.addonId), config.serType, config.serTypeReturn),
                 raised)
  {
    raised := SendCall(bus, libs, hostAddonId, config.callbackName, CallData(args, kwargs),
                       Some(config.addonId), config.serType, config.serTypeReturn);
  }

  /** make_return_call: the return always declares 'none' as its own return type. */
  method MakeReturnCall(bus: Bus, libs: Libraries, hostAddonId: string, callbackName: string,
                        data: Value := VNone, addonId: Option<string> := None,
                        serType: string := SER_TYPE_PICKLE) returns (raised: Option<Exc>)
    modifies bus
    ensures Sent(old(bus.log), bus.log,
                 SignalNotification(libs, hostAddonId, RETURN_CALL_PREFIX + callbackName, data, addonId,
                                    serType, SER_TYPE_NONE),
                 raised)
  {
    raised := SendCall(bus, libs, hostAddonId, RETURN_CALL_PREFIX + callbackName, data, addonId, serType);
  }

  /**
   * make_call: early is the answer dispatched while the call is being
   * broadcast (Kodi may deliver notifications synchronously), start the clock
   * reading when the wait begins, polls what each pass of the wait observes.
   */
  method MakeCall(bus: Bus, libs: Libraries, hostAddonId: string, receiver: CallReceiver, config: CallConfig,
                  args: seq<Value>, kwargs: seq<(string, Value)>, early: Option<Value>, start: real, polls: seq<Poll>)
    returns (r: CallOutcome)
    modifies bus, receiver
    ensures var n := SignalNotification(libs, hostAddonId, config.callbackName, CallData(args, kwargs),
                                        Some(config.addonId), config.serType, config.serTypeReturn);
            var exit := AwaitSpec(early.Some?, if early.Some? then early.value else VNone, start + config.timeoutSecs, polls);
            var cleaned := n.Ok? && (exit.Fulfilled? || exit.TimedOut?);
            var answered := n.Ok? && exit.Fulfilled?;
            var returnName := RETURN_CALL_PREFIX + config.callbackName;
            && (n.Ok? ==> bus.log == old(bus.log) + [n.value] && r == ConnectorOutcome(exit))
            && (n.Err? ==> bus.log == old(bus.log) && r == Raised(INTERNAL_ERROR))
            && Lookup(receiver.slots, config.addonId, returnName).Some?
            && var slot := Lookup(receiver.slots, config.addonId, returnName).value;
            && slot.callbackFunc.BoundReturn? && fresh(slot.callbackFunc.handler)
            && slot.serTypeReturn == (if answered then Some(SER_TYPE_NONE) else Some(config.serTypeReturn))
            && !slot.runThreaded
            && (cleaned ==> Lookup(receiver.slots, config.addonId, config.callbackName) == None)
            && (!cleaned ==> Lookup(receiver.slots, config.addonId, config.callbackName)
                             == Lookup(old(receiver.slots), config.addonId, config.callbackName))
            && (forall a, k | a != config.addonId || (k != returnName && k != config.callbackName) ::
                  Lookup(receiver.slots, a, k) == Lookup(old(receiver.slots), a, k))
  {
    PrefixedNameDiffers(RETURN_CALL_PREFIX, config.callbackName);
    var handler := new CallHandler(config, args, kwargs, receiver, bus, libs, hostAddonId);
    if handler.initError.Some? {
      return Raised(handler.initError.value);
    }
    if early.Some? {
      handler.DeliverReturn(early.value);
    }
    r := handler.WaitRpcReturnCall(start, polls);
  }
}
