/** One remote participant of a call (www/Call/Endpoint.ts): identity and
    display fields, its own listener table, and the handling of
    endpoint-scoped events forwarded to it by its Call. */
module Endpoints {
  import opened Wrappers
  import opened EventTypes
  import opened Payloads
  import opened Listeners

  /** The payload an Endpoint hands to its handlers for an event of `kind`:
      on InfoUpdated the three display fields are taken out, and in every case
      `endpointId` is replaced by the back-reference `endpoint`. */
  function EndpointPayload(kind: EndpointEvent, params: Payload, self: object): Payload
  {
    var p := if kind == InfoUpdated then params - {"displayName", "sipUri", "userName"} else params;
    (p - {"endpointId"})["endpoint" := Ref(self)]
  }

  /** What the handlers of an Endpoint event see: the `endpoint` back-reference,
      no `endpointId`, no display fields after InfoUpdated, and every other
      property of the incoming payload untouched. */
  lemma EndpointPayloadShape(kind: EndpointEvent, params: Payload, self: object)
    ensures Get(EndpointPayload(kind, params, self), "endpoint") == Ref(self)
    ensures "endpointId" !in EndpointPayload(kind, params, self)
    ensures kind == InfoUpdated ==>
              forall f :: f in {"displayName", "sipUri", "userName"} ==> f !in EndpointPayload(kind, params, self)
    ensures forall f :: f in params && f != "endpoint" && f != "endpointId" &&
                        (kind == InfoUpdated ==> f != "displayName" && f != "sipUri" && f != "userName") ==>
                          f in EndpointPayload(kind, params, self) && EndpointPayload(kind, params, self)[f] == params[f]
  {
  }

  class Endpoint {
    var id: Value
    var displayName: Value
    var sipUri: Value
    var userName: Value
    var listeners: Table<EndpointEvent>

    /** Stores the four identity and display fields exactly as given. */
    constructor (id: Value, displayName: Value, sipUri: Value, userName: Value)
      ensures this.id == id && this.displayName == displayName
      ensures this.sipUri == sipUri && this.userName == userName
      ensures listeners == map[]
    {
      this.id := id;
      this.displayName := displayName;
      this.sipUri := sipUri;
      this.userName := userName;
      listeners := map[];
    }

    /** `on(eventType, handler)`, validated against EndpointEventTypes' values. */
    method On(eventType: string, handler: Option<Handler>) returns (status: Usage)
      modifies this`listeners
      ensures status == OnStatus(EndpointEventFromName(eventType), handler)
      ensures listeners == AfterOn(old(listeners), EndpointEventFromName(eventType), handler)
    {
      if handler.None? {
        return NotAFunction;
      }
      var kind := EndpointEventFromName(eventType);
      if kind.None? {
        return UnknownKind;
      }
      if kind.value !in listeners {
        listeners := listeners[kind.value := {}];
      }
      listeners := listeners[kind.value := listeners[kind.value] + {handler.value}];
      status := Accepted;
    }

    /** `off(eventType, handler?)`.  The unknown-name check that follows the
        `has` check cannot fire, since only enumerants are ever keys. */
    method Off(eventType: string, handler: Option<Handler>) returns (status: Usage)
      modifies this`listeners
      ensures status == OffStatus(old(listeners), EndpointEventFromName(eventType))
      ensures listeners == AfterOff(old(listeners), EndpointEventFromName(eventType), handler)
    {
      var kind := EndpointEventFromName(eventType);
      if kind.None? || kind.value !in listeners {
        return NotRegistered;
      }
      if handler.Some? {
        listeners := listeners[kind.value := listeners[kind.value] - {handler.value}];
      } else {
        listeners := listeners[kind.value := {}];
      }
      status := Accepted;
    }

    /** `_emit(eventType, event)`: every handler of the kind's set runs once;
        with no set the `handlers!` dereference throws. */
    method Emit(kind: EndpointEvent, event: Payload) returns (outcome: Outcome)
      ensures StrictEmit(outcome, this, EndpointKind(kind), listeners, kind, event)
    {
      if kind !in listeners {
        return Threw(this, EndpointKind(kind));
      }
      var trace := Fire(this, EndpointKind(kind), listeners[kind], event);
      outcome := Delivered(trace);
    }

    /** The effect of `_handleEvent(kind, params)`: on InfoUpdated the three
        display fields take the payload's values (others keep theirs), the
        identity and listeners never change, and `kind` is emitted with
        EndpointPayload. */
    twostate predicate Handled(kind: EndpointEvent, params: Payload, new outcome: Outcome)
      reads this
    {
      && id == old(id)
      && listeners == old(listeners)
      && (if kind == InfoUpdated then
            && displayName == Get(params, "displayName")
            && sipUri == Get(params, "sipUri")
            && userName == Get(params, "userName")
          else
            && displayName == old(displayName)
            && sipUri == old(sipUri)
            && userName == old(userName))
      && StrictEmit(outcome, this, EndpointKind(kind), listeners, kind, EndpointPayload(kind, params, this))
    }

    method HandleEvent(kind: EndpointEvent, params: Payload) returns (outcome: Outcome)
      modifies this`displayName, this`sipUri, this`userName
      ensures Handled(kind, params, outcome)
    {
      var p := params;
      if kind == InfoUpdated {
        displayName := Get(p, "displayName");
        sipUri := Get(p, "sipUri");
        userName := Get(p, "userName");
        p := p - {"displayName", "sipUri", "userName"};
      }
      p := p - {"endpointId"};
      p := p["endpoint" := Ref(this)];
      outcome := Emit(kind, p);
    }
  }
}
