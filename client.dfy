/** The Client singleton (www/Client/Client.ts): its listener table, the
    entry point `_onEvent` through which the native bridge delivers events,
    and the registration of outbound calls by `call`. */
module Clients {
  import opened Wrappers
  import opened EventTypes
  import opened Payloads
  import opened Listeners
  import opened Endpoints
  import opened Calls
  import opened CallManagers

  class Client {
    var listeners: Table<ClientEvent>

    constructor ()
      ensures listeners == map[]
    {
      listeners := map[];
    }

    /** `on(eventType, handler)`: the handler is checked first, then the
        name, which must be one of the seven ClientEventTypes values. */
    method On(eventType: string, handler: Option<Handler>) returns (status: Usage)
      modifies this
      ensures status == OnStatus(ClientEventFromName(eventType), handler)
      ensures listeners == AfterOn(old(listeners), ClientEventFromName(eventType), handler)
    {
      if handler.None? {
        return NotAFunction;
      }
      var kind := ClientEventFromName(eventType);
      if kind.None? {
        return UnknownKind;
      }
      if kind.value !in listeners {
        listeners := listeners[kind.value := {}];
      }
      listeners := listeners[kind.value := listeners[kind.value] + {handler.value}];
      status := Accepted;
    }

    /** `off(eventType, handler?)`: a name with no set is ignored before it
        is validated; without a handler the whole set is emptied. */
    method Off(eventType: string, handler: Option<Handler>) returns (status: Usage)
      modifies this
      ensures status == OffStatus(old(listeners), ClientEventFromName(eventType))
      ensures listeners == AfterOff(old(listeners), ClientEventFromName(eventType), handler)
    {
      var kind := ClientEventFromName(eventType);
      if kind.None? || kind.value !in listeners {
        return NotRegistered;
      }
      if handler.Some? {
        listeners := listeners[kind.value := listeners[kind.value] - {handler.value}];
      } else {
        listeners := listeners[kind.value := {}];
      }
      status := Accepted;
    }

    /** `_emit(eventType, event)`: every handler of the kind runs once; a
        kind with no set is a no-op. */
    method Emit(kind: ClientEvent, event: Payload) returns (trace: seq<Delivery>)
      ensures LenientEmit(trace, this, ClientKind(kind), listeners, kind, event)
    {
      trace := [];
      if kind in listeners {
        trace := Fire(this, ClientKind(kind), listeners[kind], event);
      }
    }
  }

  /** Property names every JavaScript object, the compiled ClientEventTypes
      enum object included, inherits from Object.prototype. */
  const ObjectPrototypeNames: set<string> :=
    {"constructor", "hasOwnProperty", "isPrototypeOf", "propertyIsEnumerable",
     "toLocaleString", "toString", "valueOf", "__proto__",
     "__defineGetter__", "__defineSetter__", "__lookupGetter__", "__lookupSetter__"}

  /** The name test `on` and `off` apply as written, `ClientEventTypes[eventType]`
      being truthy: an own key of the enum object or an inherited member. */
  predicate EnumIndexTruthy(eventType: string)
  {
    eventType in ClientEventNames || eventType in ObjectPrototypeNames
  }

  /** `on`'s verdict as written, with the property-lookup name test. */
  function OnStatusAsWritten(eventType: string, handler: Option<Handler>): (u: Usage)
    ensures u == Accepted <==> handler.Some? && EnumIndexTruthy(eventType)
  {
    if handler.None? then NotAFunction
    else if !EnumIndexTruthy(eventType) then UnknownKind
    else Accepted
  }

  /** As written, `on("toString", h)` is accepted and files `h` under a name
      no event is ever emitted with; the enum-value test refuses it. */
  lemma PrototypeNameAcceptedAsWritten(h: Handler)
    ensures OnStatusAsWritten("toString", Some(h)) == Accepted
    ensures OnStatus(ClientEventFromName("toString"), Some(h)) == UnknownKind
  {
    ClientEventFromNameAccepts("toString");
  }

  /** With the enum-value test, `on` accepts a handler for exactly the seven
      ClientEventTypes names, and there it agrees with the code as written. */
  lemma OnAcceptsExactlyClientEvents(eventType: string, handler: Option<Handler>)
    ensures OnStatus(ClientEventFromName(eventType), handler) == Accepted <==>
              handler.Some? && eventType in ClientEventNames
    ensures eventType in ClientEventNames ==>
              OnStatus(ClientEventFromName(eventType), handler) == OnStatusAsWritten(eventType, handler)
  {
    ClientEventFromNameAccepts(eventType);
  }

  /** The static `_instance` slot behind `Client.getInstance()`. */
  class ClientSlot {
    var instance: Client?

    constructor ()
      ensures instance == null
    {
      instance := null;
    }

    /** `getInstance()`: created with an empty listener table on first use,
        the same Client ever after. */
    method GetInstance() returns (c: Client)
      modifies this
      ensures instance == c
      ensures old(instance) != null ==> c == old(instance)
      ensures old(instance) == null ==> fresh(c) && c.listeners == map[]
    {
      if instance == null {
        instance := new Client();
      }
      c := instance;
    }
  }

  /** The event the IncomingCall handlers receive: `name` set to
      "IncomingCall", the call and endpoint fields replaced by `call`. */
  function IncomingPayload(params: Payload, call: object): Payload
  {
    (params["name" := Text("IncomingCall")]
      - {"callId", "endpointId", "displayName", "sipUri", "userName"})["call" := Ref(call)]
  }

  /** What IncomingCall handlers see: the new call, the name, every other
      field the bridge sent, and none of the raw call or endpoint fields. */
  lemma IncomingPayloadShape(params: Payload, call: object)
    ensures Get(IncomingPayload(params, call), "call") == Ref(call)
    ensures Get(IncomingPayload(params, call), "name") == Text("IncomingCall")
    ensures forall f :: f in {"callId", "endpointId", "displayName", "sipUri", "userName"} ==>
              f !in IncomingPayload(params, call)
    ensures forall f :: f in params && f !in {"callId", "endpointId", "displayName", "sipUri", "userName", "name", "call"} ==>
              Get(IncomingPayload(params, call), f) == params[f]
  {
  }

  /** Which of `_onEvent`'s two branches an event takes. */
  predicate ForwardedToCalls(event: string)
  {
    StartsWith(event, "Call") || StartsWith(event, "Endpoint")
  }

  /** The two branches of `_onEvent` never both apply, and every name the
      Call and Endpoint routing acts on is forwarded. */
  lemma OnEventBranches(event: string)
    ensures event == "IncomingCall" ==> !ForwardedToCalls(event)
    ensures RouteOf(event) != Drop ==> ForwardedToCalls(event)
  {
    if event == "IncomingCall" {
      assert event[0] == 'I';
      assert !StartsWith(event, "Call") by { assert "Call"[0] == 'C'; }
      assert !StartsWith(event, "Endpoint") by { assert "Endpoint"[0] == 'E'; }
    }
  }

  /** The calls registered before an operation, where a registry that does
      not exist yet counts as empty. */
  function RegisteredCalls(managers: CallManagerSlot): map<Value, Call>
    reads managers, managers.instance
  {
    if managers.instance == null then map[] else managers.instance.calls
  }

  /** Everything `_onEvent` may change through the call registry. */
  ghost function RegistryFrame(managers: CallManagerSlot): set<object>
    reads managers, managers.instance,
          if managers.instance != null then managers.instance.calls.Values else {}
  {
    if managers.instance == null then {}
    else {managers.instance} + managers.instance.calls.Values + managers.instance.EndpointObjects()
  }

  /** The registry invariant, where a registry that does not exist yet
      trivially holds it. */
  ghost predicate RegistryValid(managers: CallManagerSlot)
    reads managers, RegistryFrame(managers)
  {
    managers.instance == null || managers.instance.Valid()
  }

  /** The Call and the one Endpoint `_onEvent` builds for an IncomingCall
      payload: identifiers and Endpoint details come from the payload, and
      neither has listeners yet. */
  ghost predicate BuiltFrom(call: Call, params: Payload)
    reads call, call.endpoints.Values
  {
    var id := Get(params, "endpointId");
    && call.callId == Get(params, "callId")
    && call.listeners == map[]
    && call.endpoints.Keys == {id}
    && call.endpoints[id].id == id
    && call.endpoints[id].displayName == Get(params, "displayName")
    && call.endpoints[id].sipUri == Get(params, "sipUri")
    && call.endpoints[id].userName == Get(params, "userName")
    && call.endpoints[id].listeners == map[]
  }

  /** The Call and Endpoint objects `_onEvent` constructs for IncomingCall. */
  method NewIncomingCall(params: Payload) returns (call: Call)
    ensures fresh(call) && fresh(call.endpoints.Values) && BuiltFrom(call, params)
    ensures call.Valid()
  {
    var endpoint := new Endpoint(Get(params, "endpointId"), Get(params, "displayName"),
                                 Get(params, "sipUri"), Get(params, "userName"));
    call := new Call(Get(params, "callId"), endpoint);
  }

  /** `CallManager.getInstance().addCall(call)`: the call is filed in the
      registry singleton, created empty on first use; the registry
      invariant is kept when the call keeps its own. */
  method Register(managers: CallManagerSlot, call: Call)
    modifies managers, if managers.instance != null then {managers.instance} else {}
    ensures managers.instance != null
    ensures old(managers.instance) != null ==> managers.instance == old(managers.instance)
    ensures old(managers.instance) == null ==> fresh(managers.instance)
    ensures managers.instance.calls == old(RegisteredCalls(managers))[call.callId := call]
    ensures old(managers.instance) != null ==>
      unchanged(old(managers.instance.calls.Values)) && unchanged(old(managers.instance.EndpointObjects()))
    ensures old(RegistryValid(managers)) && call.Valid() ==> managers.instance.Valid()
  {
    var manager := managers.GetInstance();
    manager.AddCall(call);
  }

  /** The registry invariant survives any step that leaves the registry,
      its calls and their Endpoints alone. */
  twostate lemma ValidKept(m: CallManager)
    requires unchanged(m) && unchanged(m.calls.Values) && unchanged(m.EndpointObjects())
    ensures old(m.Valid()) ==> m.Valid()
  {
  }

  /** The payload rewrite and `client._emit(IncomingCall, params)` that end
      the IncomingCall branch. */
  method Announce(client: Client, params: Payload, call: Call) returns (trace: seq<Delivery>)
    ensures LenientEmit(trace, client, ClientKind(IncomingCall), client.listeners,
                        IncomingCall, IncomingPayload(params, call))
  {
    var event := params["name" := Text("IncomingCall")];
    event := event - {"callId", "endpointId", "displayName", "sipUri", "userName"};
    event := event["call" := Ref(call)];
    trace := client.Emit(IncomingCall, event);
  }

  /** The IncomingCall branch of `_onEvent`: a Call holding one Endpoint built
      from the payload is registered, then IncomingCall is emitted on the
      Client singleton. */
  method OnIncomingCall(clients: ClientSlot, managers: CallManagerSlot, params: Payload)
    returns (trace: seq<Delivery>, call: Call)
    modifies clients, managers, if managers.instance != null then {managers.instance} else {}
    ensures clients.instance != null && managers.instance != null
    ensures old(clients.instance) != null ==> clients.instance == old(clients.instance)
    ensures old(clients.instance) == null ==> fresh(clients.instance) && clients.instance.listeners == map[]
    ensures old(managers.instance) != null ==> managers.instance == old(managers.instance)
    ensures old(managers.instance) == null ==> fresh(managers.instance)
    ensures fresh(call) && fresh(call.endpoints.Values) && BuiltFrom(call, params)
    ensures managers.instance.calls == old(RegisteredCalls(managers))[call.callId := call]
    ensures call.Valid()
    ensures old(managers.instance) != null ==>
      unchanged(old(managers.instance.calls.Values)) && unchanged(old(managers.instance.EndpointObjects()))
    ensures old(RegistryValid(managers)) ==> managers.instance.Valid()
    ensures LenientEmit(trace, clients.instance, ClientKind(IncomingCall), clients.instance.listeners,
                        IncomingCall, IncomingPayload(params, call))
  {
    // The source takes the Client singleton first; building a Client has
    // no other effect, so taking it after registering is the same.
    call := NewIncomingCall(params);
    Register(managers, call);
    ghost var registry := managers.instance;
    label Registered:
    var client := clients.GetInstance();
    ValidKept@Registered(registry);
    trace := Announce(client, params, call);
  }

  /** The Call and Endpoint branch of `_onEvent`: the event goes to the
      registry singleton, created empty on first use.  Only the addressed
      Call and, for InfoUpdated, the Endpoint it forwards to may change. */
  method ForwardCallEvent(managers: CallManagerSlot, event: string, params: Payload)
    returns (outcome: Outcome)
    modifies managers, RegistryFrame(managers)
    ensures managers.instance != null
    ensures old(managers.instance) != null ==>
      var m := old(managers.instance);
      var id := Get(params, "callId");
      && managers.instance == m
      && m.Routed(event, params, outcome)
      && (forall c :: c in old(m.calls.Values) && (id !in old(m.calls) || c != old(m.calls[id])) ==> unchanged(c))
      && (forall x :: x in old(m.EndpointObjects())
            && (id !in old(m.calls) || Some(x) != old(m.calls[id].ForwardTarget(event, params)))
            ==> unchanged(x))
    ensures old(managers.instance) == null ==>
      fresh(managers.instance) && managers.instance.calls == map[] && outcome == Delivered([])
    ensures old(RegistryValid(managers)) ==> managers.instance.Valid()
  {
    // getInstance() has an effect only when no registry exists yet
    var manager := managers.instance;
    if manager == null {
      manager := managers.GetInstance();
    }
    outcome := manager.HandleCallEvent(event, params);
  }

  /** `_onEvent(event, params)`, which the bridge invokes on the prototype so
      that it reaches the Client and the call registry through their
      singletons.  Call and Endpoint events go to the registry; IncomingCall
      creates and announces a call; anything else is ignored. */
  method OnEvent(clients: ClientSlot, managers: CallManagerSlot, event: string, params: Payload)
    returns (outcome: Outcome)
    modifies clients, managers, RegistryFrame(managers)
    ensures ForwardedToCalls(event) ==>
      && unchanged(clients)
      && managers.instance != null
      && (old(managers.instance) != null ==>
            var m := old(managers.instance);
            var id := Get(params, "callId");
            && managers.instance == m
            && m.Routed(event, params, outcome)
            && (forall c :: c in old(m.calls.Values) && (id !in old(m.calls) || c != old(m.calls[id])) ==> unchanged(c))
            && (forall x :: x in old(m.EndpointObjects())
                  && (id !in old(m.calls) || Some(x) != old(m.calls[id].ForwardTarget(event, params)))
                  ==> unchanged(x)))
      && (old(managers.instance) == null ==>
            fresh(managers.instance) && managers.instance.calls == map[] && outcome == Delivered([]))
    ensures event == "IncomingCall" ==>
      && outcome.Delivered?
      && clients.instance != null && managers.instance != null
      && (old(clients.instance) != null ==> clients.instance == old(clients.instance))
      && (old(managers.instance) != null ==> managers.instance == old(managers.instance))
      && (old(managers.instance) != null ==>
            unchanged(old(managers.instance.calls.Values)) && unchanged(old(managers.instance.EndpointObjects())))
      && var id := Get(params, "callId");
         && id in managers.instance.calls
         && var call := managers.instance.calls[id];
         && fresh(call) && fresh(call.endpoints.Values) && BuiltFrom(call, params)
         && managers.instance.calls == old(RegisteredCalls(managers))[id := call]
         && LenientEmit(outcome.calls, clients.instance, ClientKind(IncomingCall), clients.instance.listeners,
                        IncomingCall, IncomingPayload(params, call))
    ensures !ForwardedToCalls(event) && event != "IncomingCall" ==>
      && outcome == Delivered([])
      && unchanged(clients, managers)
      && unchanged(old(RegistryFrame(managers)))
    ensures old(RegistryValid(managers)) ==> RegistryValid(managers)
  {
    OnEventBranches(event);
    if ForwardedToCalls(event) {
      outcome := ForwardCallEvent(managers, event, params);
    } else if event == "IncomingCall" {
      var trace, call := OnIncomingCall(clients, managers, params);
      outcome := Delivered(trace);
    } else {
      outcome := Delivered([]);
    }
  }

  /** What the native `call` action reports back to `Client.call`. */
  datatype BridgeReply = Started(callId: string) | Refused(error: string)

  /** How the promise `Client.call` returns settles. */
  datatype CallPromise = Resolved(call: Call) | Rejected(error: string)

  /** `call(number, settings)` once the bridge has answered: on success a
      Call with no Endpoint is registered under the reported id and the
      promise resolves to it; on failure the promise is rejected with the
      bridge's error and the registry is not touched. */
  method PlaceCall(managers: CallManagerSlot, reply: BridgeReply) returns (r: CallPromise)
    modifies managers, if managers.instance != null then {managers.instance} else {}
    ensures reply.Refused? ==> r == Rejected(reply.error) && managers.instance == old(managers.instance)
    ensures reply.Refused? && managers.instance != null ==> managers.instance.calls == old(managers.instance.calls)
    ensures reply.Started? ==>
      && r.Resolved? && fresh(r.call)
      && r.call.callId == Text(reply.callId)
      && r.call.endpoints == map[] && r.call.listeners == map[]
      && managers.instance != null
      && (old(managers.instance) != null ==> managers.instance == old(managers.instance))
      && managers.instance.calls == old(RegisteredCalls(managers))[Text(reply.callId) := r.call]
    ensures old(RegistryValid(managers)) ==> RegistryValid(managers)
  {
    match reply {
      case Started(callId) =>
        var call := new Call(Text(callId), null);
        Register(managers, call);
        r := Resolved(call);
      case Refused(error) =>
        r := Rejected(error);
    }
  }
}
