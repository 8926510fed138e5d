# script.module.addon.connector, modelled in Dafny

This is a model of the inter-add-on call mechanism of the Kodi module
`script.module.addon.connector`, together with its legacy predecessor
`AddonSignals`, and proofs about it.

Both variants work the same way. An add-on broadcasts a JSON-RPC
`JSONRPC.NotifyAll` through Kodi. Every add-on's `Monitor.onNotification`
receives it, picks out the notifications meant for it by the sender suffix,
and looks up a slot. The lookup is keyed by add-on (or signaler) id and by
callback name (or signal). The slot's callback is then called with the
decoded payload. A blocking call registers a temporary return slot, sends
the call, and polls until the answer comes back, the timeout passes, or Kodi
asks to abort.

Modules:

- `Values`: the Python values that travel through the mechanism (`None`,
  bools, ints, strings, lists, tuples, dicts, exceptions, opaque objects),
  exceptions, `Result`/`Option`, and the JSON normal form (tuples become lists).
- `Strings`: `str.startswith`, `str.endswith`, `str.split`, `str.split('.', 1)[-1]`
  and `str.rsplit('.', 1)`, with the lemmas the dispatcher relies on.
- `Base64`: `b64encode`/`b64decode` per section 4 of RFC 4648.
- `Utf8`: `str.encode('utf-8')` and strict `bytes.decode('utf-8')` per RFC 3629.
- `Helper` (lib/helper.py): the constants, `serialize_data`/`deserialize_data`
  for the four serialisation types, the JSON-RPC request template and `CallConfig`.
- `Host`: the Kodi bus, a log of the notifications `NotifyAll` broadcast.
- `Polling`: the wait loop both `CallHandler`s run, over a sequence of observed polls.
- `SlotRegistry`: the two-level slot dictionary both receivers keep.
- `AddonConnector` (lib/addonconnector.py): `CallReceiver` and its dispatcher,
  `CallHandler`, `EnvelopeFuncCallback` and the module-level API.
- `AddonSignals` (lib/AddonSignals.py): the JSON/base64 codec,
  `SignalReceiver`, `CallHandler`, `sendSignal`, `returnCall` and `makeCall`.

pickle and json are not modelled. They are parameters (`Pickler`, `JsonLib`),
and each theorem that needs their round trip takes it as a precondition
(`PickleLawful`, `JsonLawful`). The JSON round trip holds up to
`JsonNormal`, since Python's json turns tuples into lists. The module-level
singletons (`_receiver()`), the host add-on id (`get_addon_id()`,
`_addon_id()`) and the broadcast primitive are passed in as parameters.
The clock, the abort flag and the deliveries that happen while a call waits
are a sequence of `Poll` observations.

## Model

| member | source | states |
|---|---|---|
| Strings.StartsWith | lib/addonconnector.py:94 | `str.startswith`: the text is the prefix followed by the rest of the text |
| Strings.EndsWith | lib/addonconnector.py:74 | `str.endswith` (also lib/AddonSignals.py:101): the text is the rest of the text followed by the suffix |
| Strings.Split | lib/addonconnector.py:82 | `str.split(sep)` gives one more field than there are separators, and no field contains the separator |
| Strings.SplitJoin | lib/addonconnector.py:82 | splitting fields joined by a separator they do not contain gives the fields back |
| Strings.SplitAfterField | lib/addonconnector.py:82 | splitting `head + sep + tail` for a separator-free `head` gives `head` followed by the fields of `tail` |
| Strings.SplitNoSep | lib/addonconnector.py:82 | a text without the separator splits into itself alone |
| Strings.RSplitOnce | lib/addonconnector.py:77 | `rsplit(sep, 1)` gives one part exactly when the separator is absent; otherwise two parts that rejoin to the text, the second without the separator |
| Strings.RSplitOnceOfField | lib/addonconnector.py:77 | `rsplit` of `head + sep + tail` with a separator-free `tail` is `[head, tail]`, whatever separators `head` holds |
| Strings.SeparatorSplitUnique | lib/addonconnector.py:77 | a text has only one split at its last separator |
| Strings.AfterFirst | lib/AddonSignals.py:106 | `split('.', 1)[-1]` is never longer than the text |
| Strings.AfterFirstOfField | lib/AddonSignals.py:106 | the part after the first separator of `head + sep + tail` is `tail`, dots and all |
| Strings.AfterFirstNoSep | lib/AddonSignals.py:106 | a text without a dot is its own last field |
| Base64.Encode | lib/helper.py:76-79 | b64encode gives 4 characters per started group of 3 bytes, all from the RFC 4648 alphabet or padding |
| Base64.Decode | lib/helper.py:55 | b64decode of clean text: it needs whole groups of 4 characters and gives 3 bytes per group, less 1 or 2 for padding; `Base64.DecodeEncode` is its round trip |
| Base64.DecodeEncode | lib/helper.py:53-56 | b64decode of b64encode gives the bytes back |
| Base64.EncodedNeedsNoJsonEscape | lib/helper.py:72-74 | base64 text holds no `"` and no `\`, so it can sit inside a JSON string literal unescaped |
| Base64.IndexOfCharOf | lib/helper.py:79 | the alphabet maps each 6-bit value to a character that maps back to it |
| Base64.DecodeEncodeGroup | lib/helper.py:55 | each group of 1 to 3 bytes decodes from its 4 characters, with padding only on the last group |
| Utf8.DecodeEncode | lib/helper.py:63-64 | strict UTF-8 decoding of the UTF-8 encoding of any text gives the text back |
| Utf8.Encode | lib/helper.py:101 | `str.encode('utf-8')`: at least one byte per character; `Utf8.DecodeEncode` is its round trip |
| Utf8.Decode | lib/helper.py:64 | strict `bytes.decode('utf-8')`: never more characters than bytes; `Utf8.DecodeEncode` is its round trip |
| Utf8.DecodeFirstEncodeChar | lib/helper.py:101 | the first character decoded from a character's encoding is that character, and it uses all of its bytes |
| Utf8.EncodeAscii | lib/AddonSignals.py:47-48 | the UTF-8 encoding of ASCII text is its own bytes |
| Helper.B64Decode | lib/helper.py:55 | the b64encode text of any bytes decodes to those bytes; other text decodes only when it is clean base64 |
| Helper.Utf8Decode | lib/helper.py:64 | the UTF-8 encoding of any text decodes to that text; other bytes decode only when they are well-formed UTF-8 |
| Helper.Serialize | lib/helper.py:70-104 | the wire text is base64 and safe inside a JSON string; an unknown type raises the "not supported" AddonConnectorException |
| Helper.Deserialize | lib/helper.py:50-67 | an unknown type raises the "not supported" AddonConnectorException |
| Helper.Len | lib/helper.py:90 | `len()`: defined exactly for str, list, tuple and dict, a TypeError otherwise, the item count of a list or tuple |
| Helper.First | lib/helper.py:94 | `[0]` (also lib/AddonSignals.py:37): the first item of a non-empty list or tuple, the first character of a non-empty str; never succeeds on an empty value or a dict |
| Helper.StrModeText | lib/helper.py:86-101 | the text the 'str' type sends, or its error; `Helper.StrModeTupleShape` and `Helper.StrModeRejectsNonString` state it case by case |
| Helper.NotifyAllRequest | lib/helper.py:23-27 | the request text `JSONRPC_NOTIFYALL_STR.format` builds; `Helper.SerializedPayloadSplicesIntoRequest` states where the payload sits in it |
| Helper.StrModeRoundTrip | lib/helper.py:63-64 | the 'str' type carries any string unchanged |
| Helper.StrModeTupleShape | lib/helper.py:86-101 | the 'str' type on an (args, kwargs) tuple: kwargs raise, more than one argument raises, one string argument is sent as itself, one non-string raises, no argument sends '' |
| Helper.StrModeRejectsNonString | lib/helper.py:97-100 | the 'str' type raises "The data are not of string type" for anything that is neither a string nor a tuple |
| Helper.NoneModeIgnoresData | lib/helper.py:65-66 | the 'none' type sends '' and receives None, whatever it is given |
| Helper.UnknownSerTypeRejected | lib/helper.py:67 | an unknown type raises AddonConnectorException in both directions |
| Helper.PickleModeRoundTrip | lib/helper.py:53-56 | the 'pickle' type gives back every value pickle can dump |
| Helper.JsonModeRoundTrip | lib/helper.py:57-62 | the 'json' type gives back every value json can dump, in JSON normal form |
| Helper.ObjectModeRoundTrip | lib/helper.py:50-85 | both object types deliver every value they can encode, as that type transports it |
| Helper.SerializedPayloadSplicesIntoRequest | lib/helper.py:23-27 | a serialised payload spliced raw into the NotifyAll request text is exactly the body of its "data" string literal |
| Helper.CallConfig.constructor | lib/helper.py:107-122 | the target add-on defaults to the host, the return type defaults to the send type |
| Helper.CallConfig.ChangeName | lib/helper.py:124-127 | only the callback name changes, and the same object is returned |
| Helper.DefaultCallConfig | lib/helper.py:109-110 | the defaults: 10 seconds, 'pickle' both ways, the host add-on as target |
| Host.Bus.NotifyAll | lib/addonconnector.py:201-208 | a broadcast appends one notification, its message prefixed with "Other." |
| Polling.AwaitSpec | lib/addonconnector.py:134-141 | the wait loop pass by pass: deadline first, then abort, then delivery; the `Polling` lemmas characterise its exits |
| Polling.ReceivedBeforeWait | lib/addonconnector.py:134 | a return delivered before the loop starts ends it at once, without reading the clock or the abort flag |
| Polling.FirstEvent | lib/addonconnector.py:135-141 | the index of the first pass that times out, aborts or receives, with every earlier pass quiet |
| Polling.QuietPrefix | lib/addonconnector.py:135-141 | quiet passes of the wait change nothing |
| Polling.AwaitDecidedByFirstEvent | lib/addonconnector.py:135-141 | the wait ends as its first eventful pass decides, and goes on waiting if there is none |
| Polling.TimedOutIff | lib/addonconnector.py:136 | a wait times out exactly when its first eventful pass is past the deadline |
| Polling.TimeoutCheckedBeforeAbort | lib/AddonSignals.py:136-142 | a late pass times out even when abort is requested on it |
| Polling.AbortedIff | lib/addonconnector.py:139-140 | a wait aborts exactly when its first eventful pass is on time and abort is requested |
| Polling.FulfilledIff | lib/addonconnector.py:135 | a wait finishes exactly when its first eventful pass is on time, not aborted, and delivers, and it hands back that delivery |
| SlotRegistry.WithSlot | lib/addonconnector.py:45-54 | registering sets or replaces one slot, creates the add-on entry if absent, and changes no other slot |
| SlotRegistry.WithoutSlot | lib/addonconnector.py:56-62 | unregistering removes one slot if present, keeps every add-on entry and changes no other slot |
| SlotRegistry.WithoutAddon | lib/addonconnector.py:64-69 | no id empties the registry; an id removes that add-on's entry and keeps every other one |
| SlotRegistry.Cleanup | lib/addonconnector.py:137-142 | the cleanup after a wait, for either receiver (also lib/AddonSignals.py:138-144): after a finished or timed-out wait the named slot is gone and every other slot is as before; after an abort nothing changes |
| SlotRegistry.PrefixedNameDiffers | lib/addonconnector.py:117 | a return slot's name, `__returncall__` or `_return.` (lib/AddonSignals.py:123) in front of the callback name, is never that name |
| SlotRegistry.ReturnSlotOutlivesCall | lib/addonconnector.py:117-142 | as written in both receivers, cleaning up the bare name leaves the prefixed return slot registered and removes the add-on's own slot under the bare name |
| SlotRegistry.ReturnSlotRemovedAfterCall | lib/addonconnector.py:117-142 | corrected, cleaning up the prefixed name after a finished or timed-out call leaves the registry as it found it |
| AddonConnector.SenderAddonIdRecovers | lib/addonconnector.py:74-77 | a sender `id + ".ADDONCONNECTOR"` is accepted and gives back `id`, whatever dots it holds |
| AddonConnector.SenderAddonId | lib/addonconnector.py:77 | the text before the last dot of the sender, or the whole sender when it has no dot |
| AddonConnector.Unpack2 | lib/addonconnector.py:98 | `args, kwargs = value` succeeds exactly when the value has length 2, and raises TypeError exactly when it has no length |
| AddonConnector.HandlerArguments | lib/addonconnector.py:94-98 | the args and kwargs a slot is called with; `SingleArgumentModes` and `UnpackedArgumentModes` state both branches |
| AddonConnector.DispatchSpec | lib/addonconnector.py:71-107 | the new registry and the action of `onNotification`; `DispatchIgnoredIff`, `DispatchMalformedMethod` and `DispatchHit` characterise it |
| AddonConnector.SingleArgumentModes | lib/addonconnector.py:94-96 | return calls and the 'str' and 'none' types call the slot with the decoded value as the only argument |
| AddonConnector.UnpackedArgumentModes | lib/addonconnector.py:97-98 | otherwise the decoded pair is unpacked into args and kwargs |
| AddonConnector.DispatchIgnoredIff | lib/addonconnector.py:74-84 | a notification is ignored exactly when the sender suffix is missing, the add-on is unknown, or the callback is unknown, and an ignored notification changes nothing |
| AddonConnector.DispatchMalformedMethod | lib/addonconnector.py:82-92 | a method without exactly four fields raises the internal error and changes nothing |
| AddonConnector.DispatchHit | lib/addonconnector.py:82-107 | a hit stores the return type in the slot and then calls its callback, or raises the decoding error |
| AddonConnector.CallMessage | lib/helper.py:23-27 | the `message` of a call, name, type and return type joined by dots; `CallMethodSplits` is its inverse |
| AddonConnector.CallMethodSplits | lib/addonconnector.py:82 | the method Kodi delivers for a call splits back into "Other", the name and the two types |
| AddonConnector.SignalNotification | lib/addonconnector.py:198-212 | a call is broadcast exactly when its data serialises, and any failure raises the internal error |
| AddonConnector.DispatchOfCall | lib/addonconnector.py:71-107 | a well-formed call for a registered slot is a hit on that slot |
| AddonConnector.SignalNotificationOf | lib/addonconnector.py:198-208 | the notification of a call: sender id + suffix, "Other.name.type.return", and the serialised data |
| AddonConnector.NoDotInObjectTypes | lib/helper.py:14-16 | 'pickle' and 'json' hold no dot, so they survive the method split |
| AddonConnector.CallReachesCallee | lib/addonconnector.py:186-212 | a 'pickle' or 'json' call for a registered slot, whose names need no JSON escaping, reaches that slot's callback with the caller's args and kwargs, as the type transports them |
| AddonConnector.StrCallReachesCallee | lib/addonconnector.py:186-212 | a 'str' call of one string and no kwargs reaches the slot with that string, non-ASCII text included, as its only argument |
| AddonConnector.StrCallRefused | lib/helper.py:86-101 | a 'str' call with kwargs, with more than one argument or with a non-string argument raises the internal error before anything is sent |
| AddonConnector.NoneCallReachesCallee | lib/addonconnector.py:186-212 | a 'none' call reaches the slot with None as its only argument, whatever was sent |
| AddonConnector.CallArguments | lib/addonconnector.py:94-98 | for the 'pickle' and 'json' types, the callee's handler receives the caller's args and kwargs |
| AddonConnector.UnpackCallData | lib/addonconnector.py:98 | the transported (args, kwargs) pair unpacks into two values |
| AddonConnector.NoDotInReturnName | lib/addonconnector.py:94 | a return name keeps the return prefix and adds no dot |
| AddonConnector.ReturnReachesCaller | lib/addonconnector.py:225-233 | a 'pickle' or 'json' return call, whose names need no JSON escaping, reaches the caller's "__returncall__" slot with the returned value, as the type transports it, as its one argument |
| AddonConnector.StrReturnReachesCaller | lib/addonconnector.py:225-233 | a 'str' return of a string reaches the caller's "__returncall__" slot with that string as its one argument |
| AddonConnector.NoneReturnReachesCaller | lib/addonconnector.py:225-233 | a 'none' return reaches the caller's "__returncall__" slot with None as its one argument, whatever was returned |
| AddonConnector.ReturnDispatched | lib/addonconnector.py:86 | the registry after a return call is dispatched: the return slot's `ser_type_return` becomes 'none', every other slot is as before |
| AddonConnector.ReturnDispatchWrites | lib/addonconnector.py:86 | dispatching any return call that serialises leaves the registry as `ReturnDispatched` says |
| AddonConnector.CallReceiver.constructor | lib/addonconnector.py:40-43 | a receiver starts with no slots and without threads |
| AddonConnector.CallReceiver.RegisterSlot | lib/addonconnector.py:45-54 | the slot is set as given; run_threaded defaults to the receiver's setting |
| AddonConnector.CallReceiver.UnregisterSlot | lib/addonconnector.py:56-62 | the registry loses that slot and nothing else |
| AddonConnector.CallReceiver.UnregisterSlots | lib/addonconnector.py:64-69 | the registry loses everything, or one add-on's entry |
| AddonConnector.CallReceiver.OnNotification | lib/addonconnector.py:71-107 | the new registry and the action are those of the dispatcher |
| AddonConnector.SendCall | lib/addonconnector.py:198-212 | the notification is broadcast, or the internal error is raised with the bus untouched |
| AddonConnector.ConnectorOutcome | lib/addonconnector.py:138-145 | a returned exception is raised and other data returned; a timeout raises WaitTimeoutError, an abort OperationAbortedError |
| AddonConnector.CallHandler.constructor | lib/addonconnector.py:112-124 | registers the return slot, with the return type and without threads, then sends the call |
| AddonConnector.CallHandler.ReturnCallback | lib/addonconnector.py:126-129 | stores the data and marks it received |
| AddonConnector.CallHandler.DeliverReturn | lib/addonconnector.py:86-129 | the receiver's dispatch of the answer: 'none' written into the return slot, then the data stored and marked received |
| AddonConnector.CallHandler.AwaitReturn | lib/addonconnector.py:134-141 | the loop ends as the wait specification says, holding the delivered data when fulfilled; nothing is received unless it is fulfilled; an answer received during the loop has written 'none' into the return slot |
| AddonConnector.CallHandler.WaitRpcReturnCall | lib/addonconnector.py:131-145 | the outcome of the wait, and the registry as the answer's dispatch and then the cleanup of the bare callback name leave it |
| AddonConnector.CallHandler.WaitRpcReturnCallCorrected | lib/addonconnector.py:131-145 | the same outcome, with the answer's dispatch followed by the cleanup of the `__returncall__` slot instead |
| AddonConnector.CaughtByEnvelope | lib/addonconnector.py:245-248 | nothing is caught exactly when the function returns and the slot is still registered |
| AddonConnector.EnvelopeReturnData | lib/addonconnector.py:245-250 | the data and type of the return call as written; `EnvelopeReturnsWithStoredType` and `EnvelopeExceptionReturnedAsText` characterise it |
| AddonConnector.EnvelopeReturnDataCorrected | lib/addonconnector.py:245-250 | the same with a caught exception handed on itself; `EnvelopeExceptionRaisedAtCaller` characterises it |
| AddonConnector.EnvelopeNotification | lib/addonconnector.py:251-254 | the return call `call_func` broadcasts: the internal error when the slot stored no return type, else the stored type as the send type, 'none' as the return type, the envelope's add-on as sender |
| AddonConnector.CallFunc | lib/addonconnector.py:243-254 | the return call goes out with the envelope's return data, or the pickling error is raised with the bus untouched |
| AddonConnector.EnvelopeReturnsWithStoredType | lib/addonconnector.py:246-247 | a returned value goes back with the return type the slot stored |
| AddonConnector.EnvelopeExceptionReturnedAsText | lib/addonconnector.py:248-254 | as written, a callee's exception reaches the caller as the text of its pickle, returned instead of raised |
| AddonConnector.EnvelopeExceptionRaisedAtCaller | lib/addonconnector.py:248-254 | corrected, a callee's exception is raised at the caller |
| AddonConnector.UseMultithread | lib/addonconnector.py:23-28 | sets the threading flag and leaves the slots alone |
| AddonConnector.RegistrationOf | lib/addonconnector.py:164-173 | the name defaults to the function's name and the add-on to the host when empty; the slot holds the envelope exactly when `handle_return_call`, no return type, and the receiver's threading flag |
| AddonConnector.RegisterCallback | lib/addonconnector.py:157-173 | registers the envelope (or the bare function) under the given or function name and add-on |
| AddonConnector.RegisterCallbacks | lib/addonconnector.py:148-154 | the registry after registering the whole list in order |
| AddonConnector.RegisterAll | lib/addonconnector.py:148-154 | the registry after registering a list in order; `RegisterAllLastWins` and `RegisterAllKeepsOthers` characterise it |
| AddonConnector.RegisterAllLastWins | lib/addonconnector.py:153-154 | after register_callbacks, each key holds the slot of the last entry that names it |
| AddonConnector.RegisterAllKeepsOthers | lib/addonconnector.py:153-154 | keys that no entry names keep their old slots |
| AddonConnector.UnregisterCallback | lib/addonconnector.py:176-178 | removes one slot of the given or host add-on |
| AddonConnector.UnregisterCallbacks | lib/addonconnector.py:181-183 | removes the entry of the given or host add-on, never the whole registry |
| AddonConnector.MakeSignalCall | lib/addonconnector.py:186-195 | broadcasts the (args, kwargs) call without waiting |
| AddonConnector.MakeReturnCall | lib/addonconnector.py:225-233 | broadcasts to the "__returncall__" slot with the 'none' return type |
| AddonConnector.MakeCall | lib/addonconnector.py:215-222 | the call is broadcast and waited for, from an answer already dispatched during the broadcast if there is one; the return slot stays registered, bound to the new handler without a thread, holding 'none' once answered and the call's return type otherwise; the bare name is cleaned up; no other slot changes |
| AddonSignals.ToUnicode | lib/AddonSignals.py:70-74 | the UTF-8 bytes of any text convert back to that text, and text passes through |
| AddonSignals.ToUnicodeOfEncoded | lib/AddonSignals.py:70-74 | the UTF-8 bytes of any text convert back to it |
| AddonSignals.EncodeData | lib/AddonSignals.py:42-50 | the payload is base64 text, and encoding fails exactly when json.dumps does |
| AddonSignals.Wrapped | lib/AddonSignals.py:171 | the JSON text Kodi delivers for the data list `[payload]` sent by `sendSignal`; a lawful json reads the one-element list back |
| AddonSignals.DecodeData | lib/AddonSignals.py:30-39 | `_decode_data`; `DecodeFalsy` and `DecodeEncodeData` characterise it |
| AddonSignals.DecodeFalsy | lib/AddonSignals.py:33-35 | an empty or falsy payload decodes to None |
| AddonSignals.DecodeEncodeData | lib/AddonSignals.py:30-50 | decoding the delivered payload gives back the data, in JSON normal form, and unchanged for JSON values |
| AddonSignals.EncodeTestVector | lib/AddonSignals.py:42-50 | "Fòöbàr" encodes to "IkZcdTAwZjJcdTAwZjZiXHUwMGUwciI=" (the vector of tests/test_encoding.py:17-22) |
| AddonSignals.SignalerIdRecovers | lib/AddonSignals.py:101-103 | stripping ".SIGNAL" gives back the id that was sent |
| AddonSignals.SignalerId | lib/AddonSignals.py:103 | the signaler id followed by ".SIGNAL" is the sender again |
| AddonSignals.SignalOf | lib/AddonSignals.py:106 | the signal named by the method; `SignalOfOther` and `SignalOfUndotted` characterise it |
| AddonSignals.SignalOfOther | lib/AddonSignals.py:106 | the "Other." prefix is stripped and the signal kept whole |
| AddonSignals.SignalOfUndotted | lib/AddonSignals.py:106 | a method without a dot is its own signal |
| AddonSignals.SignalReceiver.constructor | lib/AddonSignals.py:80-83 | a receiver starts with no slots |
| AddonSignals.SignalReceiver.RegisterSlot | lib/AddonSignals.py:85-89 | a later callback for the same id and signal replaces the earlier one |
| AddonSignals.SignalReceiver.UnRegisterSlot | lib/AddonSignals.py:91-97 | removes one slot, ignoring missing ones |
| AddonSignals.SignalReceiver.OnNotification | lib/AddonSignals.py:99-109 | ignored exactly when the suffix is missing or no slot matches; otherwise the slot's callback is called with the decoded payload, or decoding raises |
| AddonSignals.SignalNotification | lib/AddonSignals.py:164-172 | the sender is the first non-empty of source_id, sourceID and the host id, plus ".SIGNAL"; the message is the signal |
| AddonSignals.SendSignal | lib/AddonSignals.py:164-172 | the notification is broadcast, or the encoding error is raised with the bus untouched |
| AddonSignals.ReturnCall | lib/AddonSignals.py:180-187 | sends to the "_return." slot of the signal |
| AddonSignals.SignalReachesSlot | lib/AddonSignals.py:99-109 | a signal sent with a source id reaches the slot registered for that id and signal, with the data as JSON carries it |
| AddonSignals.LegacyOutcome | lib/AddonSignals.py:135-146 | returned data is returned; a timeout raises WaitTimeoutError or returns None; an abort raises OSError |
| AddonSignals.CallHandler.constructor | lib/AddonSignals.py:115-124 | registers the "_return." slot, then sends the signal |
| AddonSignals.CallHandler.Callback | lib/AddonSignals.py:126-129 | stores the data and marks it received |
| AddonSignals.CallHandler.AwaitReturn | lib/AddonSignals.py:134-143 | the loop ends as the wait specification says; nothing is received unless it is fulfilled |
| AddonSignals.CallHandler.WaitForReturn | lib/AddonSignals.py:131-146 | with the clock and monitor bound as intended: the outcome of the wait, and the registry as the cleanup of the bare signal leaves it |
| AddonSignals.CallHandler.WaitForReturnCorrected | lib/AddonSignals.py:131-146 | the same outcome, with the cleanup of the "_return." slot instead |
| AddonSignals.MakeCall | lib/AddonSignals.py:190-200 | the signal is broadcast and waited for, from an answer already delivered during the broadcast if there is one, with the timeout in milliseconds; the "_return." slot stays registered, bound to the new handler; the signal's own slot is cleaned up; no other slot changes |
| AddonSignals.MakeCallAsWritten | lib/AddonSignals.py:131-134 | as written, every call raises NameError after the signal is sent, with the "_return." slot left registered and no other slot touched |
| AddonSignals.AnsweredCallReturnsAnswer | lib/AddonSignals.py:135-146 | with the names bound as intended, a wait whose first eventful pass delivers the answer on time and before an abort returns that answer, whatever the timeout setting and whatever follows, and never the NameError |

## Left out

- Kodi itself is not modelled: `executeJSONRPC`, `Monitor`, `xbmc.sleep`, `log` and `xbmcaddon`. Broadcasting appends to `Host.Bus.log`, and delivery is a call of a receiver's `OnNotification`.
- Kodi parses the JSON-RPC request text and re-serialises its data as JSON before delivery. The connector model delivers the bare payload instead. `Helper.SerializedPayloadSplicesIntoRequest` proves the first half of why that is sound: the parse gets the payload back, because it is exactly the body of the `"data"` string literal. Kodi then hands the receiver that string as JSON text, so in quotes, and lib/helper.py:53-64 passes it straight to `b64decode`. Python's non-strict `b64decode` drops the quotes as characters outside the alphabet, so it yields the same bytes as a strict decode of the bare payload. The model does not have that leniency (see the `B64Decode` line below) and therefore delivers the bare payload. The legacy model lets the same `JsonLib` produce the delivered text, which `json.loads` (lib/AddonSignals.py:33) turns back into the list.
- pickle and json are parameters with stated laws, not implementations. Their error messages, and the exact exception classes of foreign code, are not modelled.
- Threads: `run_threaded` is kept as data in `Invoked`. Starting a `Thread` and running callbacks concurrently with the wait are not modelled.
- Callbacks are not executed by the dispatcher. It returns which callback would be called with which arguments. The envelope takes the enveloped function's result as `funcResult`.
- Time: `perf_counter`/`_perf_clock` readings and the abort flag are the `now` and `abortRequested` fields of each `Poll`. The 10 ms sleeps are the gaps between polls, and a return delivered during a sleep is the poll's `delivered` field. In the connector, that delivery is the dispatch of the return call (`AddonConnector.CallHandler.DeliverReturn`), including its write of 'none' into the return slot; the decoding of the answer on that path is stated separately by `AddonConnector.ReturnReachesCaller` and its 'str' and 'none' counterparts.
- A wait that has not ended by the last poll is reported as `StillWaiting`/`Blocked`, since the model has no infinite runs.
- A return delivered synchronously, while the call is being broadcast (as the host stub tests/xbmc.py does), is the `early` parameter of `AddonConnector.MakeCall` and `AddonSignals.MakeCall`; the wait then starts received and ends at once (`Polling.ReceivedBeforeWait`). `AddonSignals.MakeCallAsWritten` raises its NameError whether or not such an answer arrived, since line 133 runs first.
- `get_addon_id` and `_addon_id` caching: the host add-on id is a parameter.
- The `_receiver()` singletons and `del _receiver.cached` are not modelled. The receiver is a parameter.
- The module-level `registerSlot`, `unRegisterSlot` and `registerCall` of lib/AddonSignals.py (lines 149-177) forward to the singleton receiver. They are modelled by `AddonSignals.SignalReceiver.RegisterSlot` and `UnRegisterSlot`.
- The `_jsonrpc` helper of lib/AddonSignals.py is folded into `AddonSignals.SendSignal`. Its `id`/`jsonrpc` defaults and its parsing of the reply are not modelled.
- The deprecation log line for `sourceID` is not modelled.
- lib/AddonSignals.py refers to `time` and `xbmc` without importing them (lines 14-19, 133, 143); line 5 binds only `executeJSONRPC`, `log`, `LOGNOTICE`, `Monitor` and `sleep`. As written, every `waitForReturn` therefore raises NameError at line 133, so every legacy `makeCall` fails (see Findings). `AddonSignals.MakeCallAsWritten` models that; `AddonSignals.CallHandler.WaitForReturn` and `AddonSignals.MakeCall` assume the evidently intended clock, monitor and sleep.
- The legacy `CallHandler` with `source_id=None` is not modelled: `AddonSignals.MakeCall` takes a string id. `register_slot` with an `addon_id` of None is not modelled either; ids are strings.
- `B64Decode` accepts only clean RFC 4648 input. Python's non-strict `b64decode` discards characters outside the alphabet and ignores anything after a completed pad (`b64decode('AA==AAAA')` is `b'\x00'`), where `Base64.Decode` gives None. Missing padding raises in both.
- AddonConnector.SendCall: the bus logs callback names, serialisation types and sender ids verbatim. lib/helper.py:23-27 splices them into the request text without JSON escaping, so Kodi would reject a request where one of them holds `"`, and would unescape a `\`. `AddonConnector.CallReachesCallee`, `AddonConnector.ReturnReachesCaller` and their 'str' and 'none' counterparts therefore require names that need no escaping (`Helper.NeedsNoJsonEscape`).
- A Python `str` can hold a lone surrogate, and then `encode('utf-8')` (lib/helper.py:101, lib/AddonSignals.py:48) raises UnicodeEncodeError. A Dafny `char` cannot hold one, so that error path is not modelled.
- `json.loads` of bytes with encoding detection (lib/helper.py:62, Python 3.6 and later) is modelled as decoding strict UTF-8 first.
- `AddonSignals.DecodeData`: a first element that is not a string is reported as a TypeError without the message Python gives.
- Python's version switch between bytes and text at lib/helper.py:62 and lib/AddonSignals.py:39 is not modelled.
- `AddonConnector.Unpack2` models tuple unpacking of the decoded value. Values the model has no iteration for, such as opaque objects, raise a TypeError.

## Findings

| source | as written | input that shows it | evidently intended | confidence | as-written member | corrected member |
|---|---|---|---|---|---|---|
| lib/addonconnector.py:117-142 | `CallHandler` registers its return slot as `RETURN_CALL_PREFIX + callback_name`, but `wait_rpc_return_call` unregisters `callback_name` | `make_call` of `CallConfig('f', 'a')` through a receiver that also holds a slot `f` for add-on `a`: after the answer, `__returncall__f` is still registered and the add-on's own `f` slot is gone | unregister `RETURN_CALL_PREFIX + callback_name` | not executed | SlotRegistry.ReturnSlotOutlivesCall, AddonConnector.CallHandler.WaitRpcReturnCall | SlotRegistry.ReturnSlotRemovedAfterCall, AddonConnector.CallHandler.WaitRpcReturnCallCorrected |
| lib/addonconnector.py:248-254 | `call_func` pickles a caught exception with `serialize_data`, and `_make_signal_call` pickles that text again | a callee that raises `ValueError`: the caller's `wait_rpc_return_call` receives a `str` (the base64 pickle), so `isinstance(..., Exception)` fails and the text is returned instead of the error being raised | hand the exception itself to `_make_signal_call` with `SER_TYPE_PICKLE` | not executed | AddonConnector.EnvelopeExceptionReturnedAsText, AddonConnector.EnvelopeReturnData | AddonConnector.EnvelopeExceptionRaisedAtCaller, AddonConnector.EnvelopeReturnDataCorrected |
| lib/AddonSignals.py:123-144 | `CallHandler` registers `'_return.' + signal`, but `waitForReturn` unregisters `signal` | `makeCall('s', source_id='a')` through a receiver that also holds a slot `s` for id `a`: after the answer, `_return.s` is still registered and the add-on's slot `s` is gone | unregister `'_return.' + signal` | not executed | SlotRegistry.ReturnSlotOutlivesCall, AddonSignals.CallHandler.WaitForReturn | SlotRegistry.ReturnSlotRemovedAfterCall, AddonSignals.CallHandler.WaitForReturnCorrected |
| lib/AddonSignals.py:131-134 | `waitForReturn` looks up `xbmc` (and `_perf_clock` looks up `time`), but line 5 imports only names from `xbmc`, never the module, and `time` is never imported | `makeCall('test_calls', data, source_id='plugin.sender.id')` as in tests/test_calls.py:50: the signal is sent, then NameError is raised instead of the answer being returned, and `_return.test_calls` stays registered | `import time` and `import xbmc`, so the wait polls the clock and the monitor | not executed | AddonSignals.MakeCallAsWritten | AddonSignals.AnsweredCallReturnsAnswer, AddonSignals.MakeCall |
