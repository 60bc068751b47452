# Voximplant Cordova plugin: event routing and call registries in Dafny

This project models the event-routing and session-tracking layer of the
Voximplant Cordova plugin, and the two pieces of Android-side logic beneath it.

On the JavaScript side it models:

- the listener tables of `Client`, `Call` and `Endpoint` (`on`, `off`, `_emit`);
- the way a `Call` routes the events it receives from the native bridge (`_handleEvent`);
- the way an `Endpoint` applies `InfoUpdated`;
- the `CallManager` singleton, which maps call identifiers to `Call` objects;
- `Client._onEvent`, the bridge's entry point;
- the registration of an outbound call when `Client.call` succeeds.

On the Android side it models:

- the `CallManager` registry of native call modules and its argument check;
- the enum and map/JSON converters in `VoximplantUtils`.

Files and modules:

| file | module | what it holds |
|---|---|---|
| `wrappers.dfy` | `Wrappers` | `Option` |
| `event_types.dfy` | `EventTypes` | the three event enums as datatypes, their names and their parsers |
| `payloads.dfy` | `Payloads` | event payloads, handlers, the trace of handler invocations, and emit outcomes |
| `listeners.dfy` | `Listeners` | the `on`/`off`/`_emit` contract shared by the three owners |
| `endpoint.dfy` | `Endpoints` | class `Endpoint` |
| `call.dfy` | `Calls` | class `Call` and its routing functions |
| `call_manager.dfy` | `CallManagers` | class `CallManager` and the singleton slot |
| `client.dfy` | `Clients` | class `Client`, its slot, `_onEvent` and `call` |
| `android_call_manager.dfy` | `AndroidCalls` | the Android `CallManager` |
| `voximplant_utils.dfy` | `AndroidUtils` | the six Android converters |

How the model represents things:

- **Payloads.** A JavaScript event object is a `map<string, Value>`. A property that is absent reads as `Undefined`. The `call` and `endpoint` back-references are `Ref(object)` values.
- **Handlers.** Handlers are opaque identities. The model never runs their bodies.
- **Emitting.** Emitting an event produces a trace: one `Delivery` per invocation. `Listeners.Fire` builds the trace with a loop over the handler set.
- **Failed emits.** A `Call` or `Endpoint` that emits a kind with no handler set ends in `Threw`. This models the `handlers!` dereference. A `Client` in the same situation emits nothing.
- **In-place changes.**
  - `Call`, `Endpoint`, `Client` and both `CallManager`s are classes whose methods update their fields.
  - Each `_handleEvent` is specified by a two-state predicate (`Handled`, `Routed`) over the old and new object state.
  - Two invariants hold throughout. A `Call` files each Endpoint under that Endpoint's own `id`. The registry files each `Call` under its own `callId`, and every registered `Call` keeps the first invariant. So a `Call` reached through the registry can always list its Endpoints (`Calls.Call.GetEndpoints` requires the first invariant). Every method that changes a `Call` or the registry keeps both.
- **`_handleEvent` branches.** The source tests the derived name against each of the nine directly emitted kinds in turn. The model makes this a single test against `Calls.DirectCallEvents`.

## Model

| member | source | states |
|---|---|---|
| EventTypes.ClientEventFromName | www/Client/ClientEventTypes.ts:5-34 | a name parses to a ClientEventTypes member only when it is that member's value |
| EventTypes.CallEventFromName | www/Call/CallEventTypes.ts:12-80 | a name parses to a CallEventTypes member only when it is that member's value |
| EventTypes.EndpointEventFromName | www/Call/EndpointEventTypes.ts:10-23 | a name parses to an EndpointEventTypes member only when it is that member's value |
| EventTypes.ClientEventNameRoundTrip | www/Client/ClientEventTypes.ts:5-34 | every client kind's name parses back to that kind |
| EventTypes.CallEventNameRoundTrip | www/Call/CallEventTypes.ts:12-80 | every call kind's name parses back to that kind |
| EventTypes.EndpointEventNameRoundTrip | www/Call/EndpointEventTypes.ts:10-23 | every endpoint kind's name parses back to that kind |
| EventTypes.ClientEventFromNameAccepts | www/Client/ClientEventTypes.ts:5-34 | the accepted names are exactly the seven enum values |
| EventTypes.CallEventFromNameAccepts | www/Call/CallEventTypes.ts:12-80 | the accepted names are exactly the eleven enum values |
| EventTypes.EndpointEventFromNameAccepts | www/Call/EndpointEventTypes.ts:10-23 | the accepted names are exactly "InfoUpdated" and "Removed" |
| EventTypes.CallAndEndpointNamesDisjoint | www/Call/Call.ts:227 | no name is both a Call kind and an Endpoint kind, so the `name` test is unambiguous |
| Listeners.Fire | www/Call/Call.ts:287-291 | the `forEach` over a handler set invokes each member exactly once with the event (as a multiset) and nothing else |
| Listeners.FiredOncePerRegistration | www/Client/Client.ts:329-333 | a handler registered any number of times runs exactly once per emit; an unregistered one never runs |
| Listeners.OnAdds | www/Client/Client.ts:329-333 | an accepted `on` adds the handler to the kind's set (creating it), keeps the kind's other handlers and leaves other kinds alone |
| Listeners.OnIdempotent | www/Client/Client.ts:329-333 | registering the same handler twice equals registering it once |
| Listeners.OnRejectedIsNoOp | www/Client/Client.ts:321-328 | `on` with a missing/non-function handler or an unknown kind changes no table |
| Listeners.OffUnregisteredIsNoOp | www/Client/Client.ts:342-344 | `off` for a kind with no set changes nothing |
| Listeners.OffRemoves | www/Client/Client.ts:349-354 | `off(k, h)` removes exactly `h`; `off(k)` leaves an empty set; other kinds keep their handlers |
| Listeners.OffUndoesOn | www/Call/Endpoint.ts:56-91 | `off(k, h)` after `on(k, h)` restores `k`'s handlers |
| Listeners.FiringAfterClearIsSilent | www/Call/Endpoint.ts:85-90 | after `off(k)` with no handler, emitting `k` invokes nobody |
| Endpoints.EndpointPayloadShape | www/Call/Endpoint.ts:93-107 | the emitted payload has `endpoint` = this, no `endpointId`, no display fields after InfoUpdated, and every other property unchanged |
| Endpoints.Endpoint.constructor | www/Call/Endpoint.ts:42-47 | id, displayName, sipUri and userName are stored as given; no handlers |
| Endpoints.Endpoint.On | www/Call/Endpoint.ts:56-70 | rejects a non-function handler, then a name outside EndpointEventTypes, without change; otherwise inserts with set semantics |
| Endpoints.Endpoint.Off | www/Call/Endpoint.ts:77-91 | a no-op for a kind with no set; removes the given handler or empties the set |
| Endpoints.Endpoint.Emit | www/Call/Endpoint.ts:114-118 | every handler of the kind runs once; with no set the emit throws |
| Endpoints.Endpoint.HandleEvent | www/Call/Endpoint.ts:93-108 | on InfoUpdated the three display fields take the payload's values, otherwise they are unchanged; `id` and handlers never change; the same kind is emitted with the reshaped payload |
| Calls.DerivedName | www/Call/Call.ts:220-226 | the derived name is the event name minus a leading "Call" or "Endpoint", and exists exactly when one of them is present |
| Calls.PrefixesExclusive | www/Call/Call.ts:221-226 | no name starts with both prefixes, so at most one replacement applies |
| Calls.CallPayloadShape | www/Call/Call.ts:219-229 | every handled payload loses `callId`, gains `call` = this Call, and gets `name` = derived name exactly when it is a Call or Endpoint kind; other properties are kept |
| Calls.RouteOfByName | www/Call/Call.ts:230-273 | the routes match the source's literal tests: EndpointAdded adds, InfoUpdated forwards, and each of the nine direct names emits itself |
| Calls.AddedPayloadShape | www/Call/Call.ts:233-237 | the EndpointAdded payload has `endpoint` set and none of the four raw endpoint fields |
| Calls.PrefixIrrelevant | www/Call/Call.ts:221-226 | "CallX" and "EndpointX" derive the same name and take the same route |
| Calls.DirectEventsRouted | www/Call/Call.ts:240-266 | each of the nine direct kinds, arriving as "Call" + name, is emitted as itself |
| Calls.EndpointAddedRouted | www/Call/Call.ts:230-239 | "CallEndpointAdded" takes the endpoint-adding route |
| Calls.InfoUpdatedRouted | www/Call/Call.ts:267-273 | "EndpointInfoUpdated" is forwarded to an Endpoint |
| Calls.EndpointRemovedDropped | www/Call/Call.ts:218-274 | "EndpointRemoved" is stamped `name` = "Removed" and then dropped |
| Calls.RoutingLimits | www/Call/Call.ts:218-274 | CallOperationFailed is never emitted, EndpointAdded is never emitted directly, and a name without either prefix is dropped |
| Calls.Call.constructor | www/Call/Call.ts:29-34 | the endpoint map is empty, or holds exactly the given Endpoint under its id |
| Calls.Call.GetEndpoints | www/Call/Call.ts:36-38 | the array holds exactly the map's values, each once |
| Calls.Call.On | www/Call/Call.ts:47-61 | validates against the CallEventTypes values, with set semantics; the endpoint map is untouched |
| Calls.Call.Off | www/Call/Call.ts:68-82 | a no-op for a kind with no set; removes the handler or empties the set; the endpoint map is untouched |
| Calls.Call.Emit | www/Call/Call.ts:287-291 | every handler of the kind runs once; with no set the emit throws |
| Calls.Call.ReplaceCallIdWithCall | www/Call/Call.ts:279-282 | `callId` is removed, `call` is set to this Call, and everything else is kept |
| Calls.Call.AddEndpointAndEmit | www/Call/Call.ts:230-239 | a fresh Endpoint built from the payload is filed under `endpointId` (other entries unchanged) before EndpointAdded is emitted with the reshaped payload |
| Calls.Call.Prepare | www/Call/Call.ts:219-229 | the prepared payload is the event's payload with `callId` replaced by the Call and `name` stamped when the derived name is a known kind; the derived name is the event with its "Call" or "Endpoint" prefix removed, "Endpoint" winning |
| Calls.Call.ForwardInfoUpdatedTo | www/Call/Call.ts:267-273 | the Endpoint under `endpointId` handles InfoUpdated, and no other Endpoint changes; with no such Endpoint nothing is emitted and no Endpoint changes; no Endpoint's `id` changes |
| Calls.Call.HandleEvent | www/Call/Call.ts:218-274 | the whole routing: add-and-emit, direct emit with the endpoint map unchanged, forwarding, or drop with nothing emitted; only the forwarded Endpoint may change, no Endpoint's `id` changes, and the id-keyed invariant is kept |
| CallManagers.CallManager.constructor | www/Call/CallManager.ts:17-21 | the registry starts empty |
| CallManagers.CallManager.AddCall | www/Call/CallManager.ts:30-32 | the call is filed under its `callId`, overwriting any earlier one; keys only grow; the registry invariant is kept when the new call keeps its own |
| CallManagers.CallManager.HandleCallEvent | www/Call/CallManager.ts:34-38 | the registry map is unchanged; exactly the Call under `params.callId` handles the event; the other Calls are unchanged, and so is every registered Endpoint except the one that Call forwards InfoUpdated to; a miss changes nothing and emits nothing; the addressed Call's invariant and the registry invariant are kept |
| CallManagers.CallManagerSlot.GetInstance | www/Call/CallManager.ts:23-28 | the first call creates an empty registry; later calls return the same one |
| Clients.Client.On | www/Client/Client.ts:320-334 | rejects a non-function handler, then a name outside ClientEventTypes, without change; otherwise inserts with set semantics |
| Clients.Client.Off | www/Client/Client.ts:341-355 | a no-op for a kind with no set; removes the handler or empties the set |
| Clients.Client.Emit | www/Client/Client.ts:360-365 | every handler of the kind runs once; with no set nothing happens |
| Clients.ClientSlot.GetInstance | www/Client/Client.ts:26-31 | created with no handlers on first use; the same Client afterwards |
| Clients.OnStatusAsWritten | www/Client/Client.ts:320-328 | as written, `on` accepts a handler exactly when the name is a member name or an inherited Object.prototype name |
| Clients.PrototypeNameAcceptedAsWritten | www/Client/Client.ts:325-333 | "toString" passes the as-written test but is not a ClientEventTypes value |
| Clients.OnAcceptsExactlyClientEvents | www/Client/Client.ts:320-334 | the corrected `on` accepts exactly the seven names, and agrees with the as-written code on them |
| Clients.IncomingPayloadShape | www/Client/Client.ts:378-384 | IncomingCall handlers see `call` and `name` = "IncomingCall", none of the five raw fields, and all other fields as sent |
| Clients.OnEventBranches | www/Client/Client.ts:369-374 | the two branches of `_onEvent` are exclusive, and every event a Call acts on is forwarded |
| Clients.NewIncomingCall | www/Client/Client.ts:375-376 | a fresh Call holding exactly one fresh Endpoint, with the ids and the three details taken from the payload and no handlers; the Call keeps its invariant |
| Clients.Register | www/Client/Client.ts:377 | the registry singleton (created empty if missing) files the call under its `callId`; no registered Call or Endpoint changes; the registry invariant is kept |
| Clients.Announce | www/Client/Client.ts:378-385 | IncomingCall is emitted on the Client with the rewritten payload |
| Clients.OnIncomingCall | www/Client/Client.ts:373-386 | exactly one fresh Call with a single fresh Endpoint (built from the four fields) is registered under `callId`; no previously registered Call or Endpoint changes; the registry invariant is kept; IncomingCall is emitted on the Client singleton |
| Clients.ForwardCallEvent | www/Client/Client.ts:370-372 | the registry singleton (created empty if missing) routes the event; only the addressed Call and the Endpoint it forwards to may change; the registry invariant is kept |
| Clients.OnEvent | www/Client/Client.ts:369-387 | Call*/Endpoint* events go unchanged to the registry's routing, and only the addressed Call and its forwarded Endpoint may change; IncomingCall registers and announces a call, leaving earlier Calls and Endpoints alone; other events change nothing at all; the registry invariant is kept in every case |
| Clients.PlaceCall | www/Client/Client.ts:299-309 | on success, a Call with no endpoints is registered under the returned id and the promise resolves to it; on failure, it is rejected and the registry is untouched; the registry invariant is kept |
| AndroidCalls.CallbackContext.Error | src/android/CallManager.java:39 | one more error is reported |
| AndroidCalls.FoundIffRegistered | src/android/CallManager.java:37-59 | a module is returned exactly when a readable id is registered, and it is the registered module |
| AndroidCalls.InvalidArgumentCases | src/android/CallManager.java:38-53 | null/empty args, or a null or unreadable first argument, give "Invalid arguments" |
| AndroidCalls.UnregisteredCase | src/android/CallManager.java:54-57 | an unregistered id gives "Failed to find call for callId: " + id |
| AndroidCalls.MessagesDistinct | src/android/CallManager.java:39-56 | the two error messages never coincide |
| AndroidCalls.AddThenFound | src/android/CallManager.java:29-31 | after `addNewCall(id, m)` the id resolves to `m` |
| AndroidCalls.EndedThenNotFound | src/android/CallManager.java:33-35 | after `callHasEnded(id)` that id no longer resolves and every other id resolves as before |
| AndroidCalls.CallManager.constructor | src/android/CallManager.java:24-27 | the registry starts empty |
| AndroidCalls.CallManager.AddNewCall | src/android/CallManager.java:29-31 | `put`: the id maps to the module, overwriting any earlier entry |
| AndroidCalls.CallManager.CallHasEnded | src/android/CallManager.java:33-35 | `remove`: only the id is removed |
| AndroidCalls.CallManager.CheckCallEvent | src/android/CallManager.java:37-59 | returns the module or null; exactly one error on each null path and none on success; the map is never changed |
| AndroidUtils.ConvertStringToRequestAudioFocusMode | src/android/VoximplantUtils.java:22-31 | only "REQUEST_ON_CALL_CONNECTED" selects that mode; everything else gives REQUEST_ON_CALL_START |
| AndroidUtils.AudioFocusModeRoundTrip | src/android/VoximplantUtils.java:22-31 | each mode's JavaScript name converts back to that mode |
| AndroidUtils.ConvertLoginErrorToInt | src/android/VoximplantUtils.java:33-53 | the codes are 401/403/404/408/491/503/701/500, with 500 exactly for INTERNAL_ERROR and unlisted errors |
| AndroidUtils.LoginErrorCodesDistinct | src/android/VoximplantUtils.java:33-53 | the seven named errors have pairwise distinct codes |
| AndroidUtils.ConvertClientStateToString | src/android/VoximplantUtils.java:55-69 | always one of the five JavaScript ClientState values; DISCONNECTED or unlisted gives "disconnected" |
| AndroidUtils.ClientStateStringsFaithful | src/android/VoximplantUtils.java:55-69 | named states map injectively, and every JavaScript value is produced |
| AndroidUtils.ConvertStringToVideoCodec | src/android/VoximplantUtils.java:87-97 | "VP8" gives VP8 and "H264" gives H264, both exactly; anything else gives AUTO |
| AndroidUtils.VideoCodecRoundTrip | src/android/VoximplantUtils.java:87-97 | each codec's JavaScript name converts back to that codec |
| AndroidUtils.ConvertJsonObjectToMap | src/android/VoximplantUtils.java:71-85 | exactly the object's keys; each value is its string form, or "" when unreadable |
| AndroidUtils.MapToJsonObject | src/android/VoximplantUtils.java:99-113 | null exactly for a null or empty map, or when a null key carries a value |
| AndroidUtils.ConvertMapToJsonObject | src/android/VoximplantUtils.java:99-113 | null for a null or empty map, or when a null key carries a value; otherwise an object holding exactly the entries whose key and value are both non-null (a null value removes its name) |
| AndroidUtils.MapToJsonObjectContents | src/android/VoximplantUtils.java:104-106 | the object holds exactly the entries with a non-null key and a non-null value, with their values |
| AndroidUtils.MapJsonRoundTrip | src/android/VoximplantUtils.java:71-113 | a non-empty map of strings, converted to JSON and back, is unchanged |

## Left out

- The Cordova bridge (`cordova.exec`), the Promise plumbing, and the control methods that only call the bridge (init, connect, the logins, tokenRefresh, disconnect, answer, decline, reject, sendAudio, sendTone, hangup, sendMessage, sendInfo, hold). They are foreign calls. Only the reply of the `call` action is modelled (`Clients.BridgeReply`).
- The merging of `call`'s settings with their defaults, and the number dialled. Both go only to the bridge.
- `console.log`/`console.warn`, and the Android `Log.e` calls.
- Handler bodies.
  - Handlers are identities, and emitting records a trace of deliveries instead of running them.
  - A handler that calls `on`/`off` while its set is being iterated is not modelled.
  - A handler that mutates the shared payload object is not modelled.
  - A handler that throws is not modelled.
- Payload object identity. The source mutates one JavaScript object in place. The model passes it as a value and records the value each handler receives.
- Listeners.Fire: set iteration order (insertion order in JavaScript) is not stated; the trace is fixed only up to order.
- Calls.Call.GetEndpoints: the array's order (Map insertion order) is not stated, only its contents and that each Endpoint appears once. `Array.from` is modelled as a loop over the map's keys.
- Clients.OnEvent: when `_onEvent` itself creates the registry, the contract says only that the new registry is empty and that nothing is emitted.
- Clients.OnIncomingCall: it takes the Client singleton after registering the call, where the source takes it first. Creating a Client has no other effect, so only the allocation order differs.
- Clients.ForwardCallEvent: when the registry already exists it is used directly instead of through `getInstance()`, which returns it unchanged in that case.
- Clients.Client.On: it uses the corrected name test (the seven ClientEventTypes values), not the property lookup of the code as written; see Findings.
- Clients.Client.Off: the code as written also validates by property lookup, but only after it has found a set. With the corrected `on` no set exists for an inherited name, so the two agree.
- `CallManager.sendEventToJS` (Android). It posts to the main looper and loads a URL into the WebView, which is I/O and threading.
- `ClientModule.java`, `CallModule.java`, `VoximplantPlugin.java` and the iOS headers. They are native SDK glue and declarations, and are not part of this model.
- Java null handling outside the modelled branches is not modelled:
  - a null `callId` passed to `addNewCall`;
  - a null argument to the enum converters, whose `switch` would throw;
  - a null object passed to `convertJSONObjectToMap`.
- The JSON reads.
  - `JSONArray.getString` and `JSONObject.getString` are abstracted to what they yield: a string, a null, or an exception (`AndroidCalls.StringRead`, `AndroidUtils.Member`).
  - Android's coercion of non-string values to strings happens before the model sees them.
  - The iteration order of JSON keys is not modelled; the results do not depend on it.
- No eviction. The model does no eviction on `EndpointRemoved` or when a call ends, and neither does the JavaScript side.

## Findings

| source | as written | input that shows it | evidently intended | confidence | as-written member | corrected member |
|---|---|---|---|---|---|---|
| www/Client/Client.ts:325 | `on` (and `off`) accept `eventType` when `ClientEventTypes[eventType]` is truthy. The enum object inherits Object.prototype, so inherited names pass. | `client.on("toString", h)` is accepted and files `h` under a name that is never emitted | accept only the seven ClientEventTypes values, as Call and Endpoint do with `Object.values(...).indexOf` | high, not executed | Clients.PrototypeNameAcceptedAsWritten | Clients.OnAcceptsExactlyClientEvents |

The rest of the model (`Clients.Client.On`) uses the corrected test.
