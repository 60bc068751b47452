/** One call session (www/Call/Call.ts): its identifier, the map of its
    Endpoints, its listener table, and the routing of call-scoped bridge
    events (`_handleEvent`). */
module Calls {
  import opened Wrappers
  import opened EventTypes
  import opened Payloads
  import opened Listeners
  import opened Endpoints

  function StartsWith(s: string, prefix: string): bool
  {
    |prefix| <= |s| && s[..|prefix|] == prefix
  }

  /** The event name `_handleEvent` derives from a bridge event name: the
      leading "Call" or "Endpoint" removed, or nothing for any other name. */
  function DerivedName(event: string): (n: Option<string>)
    ensures n.Some? <==> StartsWith(event, "Call") || StartsWith(event, "Endpoint")
    ensures StartsWith(event, "Call") ==> event == "Call" + n.value
    ensures StartsWith(event, "Endpoint") ==> event == "Endpoint" + n.value
  {
    PrefixesExclusive(event);
    if StartsWith(event, "Endpoint") then Some(event[8..])
    else if StartsWith(event, "Call") then Some(event[4..])
    else None
  }

  /** No name starts with both "Call" and "Endpoint". */
  lemma PrefixesExclusive(event: string)
    ensures !(StartsWith(event, "Call") && StartsWith(event, "Endpoint"))
  {
    if StartsWith(event, "Call") && |event| >= 8 {
      assert event[..4][0] == event[0] == 'C';
      assert event[..8][0] == event[0];
    }
  }

  /** Whether a derived name is stamped into `params.name`: it is the key of
      a CallEventTypes or EndpointEventTypes member. */
  predicate IsEventName(n: string)
  {
    CallEventFromName(n).Some? || EndpointEventFromName(n).Some?
  }

  /** The payload after the first steps of `_handleEvent`, common to every
      event: `callId` removed, `call` set to this Call, and `name` set to the
      derived name when that names a Call or Endpoint event. */
  function CallPayload(event: string, params: Payload, self: object): Payload
  {
    var p := (params - {"callId"})["call" := Ref(self)];
    var n := DerivedName(event);
    if n.Some? && IsEventName(n.value) then p["name" := Text(n.value)] else p
  }

  /** The nine Call events `_handleEvent` emits as they arrive. */
  const DirectCallEvents: set<CallEvent> :=
    {Disconnected, Connected, ProgressToneStart, ProgressToneStop, Failed,
     ICECompleted, ICETimeout, InfoReceived, MessageReceived}

  /** Where `_handleEvent` sends an event. */
  datatype Route =
    | AddEndpoint               // EndpointAdded: a new Endpoint joins the call
    | EmitOnCall(kind: CallEvent)
    | ForwardInfoUpdated        // handed to the Endpoint named by `endpointId`
    | Drop                      // anything else: nothing is emitted

  /** The branch `_handleEvent` takes, decided by which enumerant (if any)
      the derived name is the value of. */
  function RouteOf(event: string): Route
  {
    var n := DerivedName(event);
    var k := if n.Some? then CallEventFromName(n.value) else None;
    if k == Some(EndpointAdded) then AddEndpoint
    else if k.Some? && k.value in DirectCallEvents then EmitOnCall(k.value)
    else if n.Some? && EndpointEventFromName(n.value) == Some(InfoUpdated) then ForwardInfoUpdated
    else Drop
  }

  /** RouteOf follows the source's literal name tests: EndpointAdded,
      InfoUpdated and the nine direct names, compared with the derived name. */
  lemma RouteOfByName(event: string)
    ensures RouteOf(event) == AddEndpoint <==> DerivedName(event) == Some("EndpointAdded")
    ensures RouteOf(event) == ForwardInfoUpdated <==> DerivedName(event) == Some("InfoUpdated")
    ensures forall k :: RouteOf(event) == EmitOnCall(k) <==>
              k in DirectCallEvents && DerivedName(event) == Some(CallEventName(k))
  {
    var n := DerivedName(event);
    if n.Some? {
      CallEventNameRoundTrip(EndpointAdded);
      EndpointEventNameRoundTrip(InfoUpdated);
      forall k | k in DirectCallEvents ensures CallEventFromName(CallEventName(k)) == Some(k) {
        CallEventNameRoundTrip(k);
      }
    }
  }

  /** The payload emitted with EndpointAdded: the four raw endpoint fields
      replaced by the `endpoint` reference to the new Endpoint. */
  function AddedPayload(p: Payload, endpoint: object): Payload
  {
    (p - {"endpointId", "displayName", "sipUri", "userName"})["endpoint" := Ref(endpoint)]
  }

  /** Every payload a Call hands on has lost `callId` and carries `call`; it
      carries `name` = the derived name exactly when that name is a Call or
      Endpoint kind, and otherwise keeps whatever `name` it came with. */
  lemma CallPayloadShape(event: string, params: Payload, self: object)
    ensures "callId" !in CallPayload(event, params, self)
    ensures Get(CallPayload(event, params, self), "call") == Ref(self)
    ensures DerivedName(event).Some? && IsEventName(DerivedName(event).value) ==>
              Get(CallPayload(event, params, self), "name") == Text(DerivedName(event).value)
    ensures !(DerivedName(event).Some? && IsEventName(DerivedName(event).value)) ==>
              Get(CallPayload(event, params, self), "name") == Get(params, "name")
    ensures forall f :: f in params && f != "callId" && f != "call" && f != "name" ==>
              f in CallPayload(event, params, self) && CallPayload(event, params, self)[f] == params[f]
  {
  }

  /** The EndpointAdded payload keeps `call` and `name` and holds none of the
      raw endpoint fields. */
  lemma AddedPayloadShape(p: Payload, endpoint: object)
    ensures Get(AddedPayload(p, endpoint), "endpoint") == Ref(endpoint)
    ensures forall f :: f in {"endpointId", "displayName", "sipUri", "userName"} ==> f !in AddedPayload(p, endpoint)
    ensures Get(AddedPayload(p, endpoint), "call") == Get(p, "call")
    ensures Get(AddedPayload(p, endpoint), "name") == Get(p, "name")
  {
  }

  /** The prefix the bridge puts in front of a name does not matter:
      "CallX" and "EndpointX" are routed alike. */
  lemma {:induction false} PrefixIrrelevant(x: string)
    ensures RouteOf("Call" + x) == RouteOf("Endpoint" + x)
    ensures DerivedName("Call" + x) == DerivedName("Endpoint" + x) == Some(x)
  {
    assert ("Call" + x)[..4] == "Call";
    assert ("Call" + x)[4..] == x;
    assert ("Endpoint" + x)[..8] == "Endpoint";
    assert ("Endpoint" + x)[8..] == x;
    PrefixesExclusive("Call" + x);
  }

  /** Each of the nine direct Call events arrives as "Call<name>" and is
      emitted as itself. */
  lemma DirectEventsRouted(k: CallEvent)
    requires k in DirectCallEvents
    ensures RouteOf("Call" + CallEventName(k)) == EmitOnCall(k)
  {
    PrefixIrrelevant(CallEventName(k));
  }

  /** "CallEndpointAdded" from the bridge adds an Endpoint. */
  lemma EndpointAddedRouted()
    ensures RouteOf("CallEndpointAdded") == AddEndpoint
  {
    PrefixIrrelevant("EndpointAdded");
  }

  /** "EndpointInfoUpdated" from the bridge is forwarded to an Endpoint. */
  lemma InfoUpdatedRouted()
    ensures RouteOf("EndpointInfoUpdated") == ForwardInfoUpdated
  {
    PrefixIrrelevant("InfoUpdated");
  }

  /** "EndpointRemoved" is stamped `name` = "Removed" and then dropped: the
      Endpoint is not evicted and nothing is emitted. */
  lemma EndpointRemovedDropped(self: object)
    ensures RouteOf("EndpointRemoved") == Drop
    ensures CallPayload("EndpointRemoved", map[], self) == map["call" := Ref(self), "name" := Text("Removed")]
  {
    PrefixIrrelevant("Removed");
  }

  /** No bridge event is ever emitted as CallOperationFailed, and a name
      without either prefix is never routed anywhere. */
  lemma RoutingLimits(event: string)
    ensures RouteOf(event) != EmitOnCall(CallOperationFailed)
    ensures RouteOf(event) != EmitOnCall(EndpointAdded)
    ensures !StartsWith(event, "Call") && !StartsWith(event, "Endpoint") ==> RouteOf(event) == Drop
  {
  }

  class Call {
    var callId: Value
    var listeners: Table<CallEvent>
    var endpoints: map<Value, Endpoint>

    /** Every Endpoint is filed under its own id. */
    ghost predicate Valid()
      reads this, endpoints.Values
    {
      forall k :: k in endpoints ==> endpoints[k].id == k
    }

    /** A call starts with no Endpoint (outbound) or with exactly the given
        one, filed under its id (inbound). */
    constructor (callId: Value, endpoint: Endpoint?)
      ensures this.callId == callId && listeners == map[]
      ensures endpoint == null ==> endpoints == map[]
      ensures endpoint != null ==> endpoints == map[endpoint.id := endpoint]
      ensures Valid()
    {
      this.callId := callId;
      listeners := map[];
      if endpoint != null {
        var single: map<Value, Endpoint> := map[];
        endpoints := single[endpoint.id := endpoint];
      } else {
        endpoints := map[];
      }
    }

    /** `getEndpoints()`: exactly the map's values, each once. */
    method GetEndpoints() returns (r: seq<Endpoint>)
      requires Valid()
      ensures forall e :: e in r <==> e in endpoints.Values
      ensures |r| == |endpoints|
      ensures forall i, j :: 0 <= i < j < |r| ==> r[i] != r[j]
    {
      var m := endpoints;
      r := [];
      var pending := m.Keys;
      ghost var ks: seq<Value> := [];
      while pending != {}
        invariant pending <= m.Keys
        invariant |ks| == |r| && |r| + |pending| == |m|
        invariant forall i :: 0 <= i < |r| ==> ks[i] in m && ks[i] !in pending && r[i] == m[ks[i]]
        invariant forall k :: k in m && k !in pending ==> m[k] in r
        invariant forall i, j :: 0 <= i < j < |ks| ==> ks[i] != ks[j]
        decreases |pending|
      {
        var k :| k in pending;
        r := r + [m[k]];
        ks := ks + [k];
        pending := pending - {k};
      }
      assert forall i :: 0 <= i < |r| ==> r[i].id == ks[i];
    }

    /** `on(eventType, handler)`, validated against CallEventTypes' values;
        the endpoint map is never touched. */
    method On(eventType: string, handler: Option<Handler>) returns (status: Usage)
      modifies this`listeners
      ensures status == OnStatus(CallEventFromName(eventType), handler)
      ensures listeners == AfterOn(old(listeners), CallEventFromName(eventType), handler)
      ensures endpoints == old(endpoints)
    {
      if handler.None? {
        return NotAFunction;
      }
      var kind := CallEventFromName(eventType);
      if kind.None? {
        return UnknownKind;
      }
      if kind.value !in listeners {
        listeners := listeners[kind.value := {}];
      }
      listeners := listeners[kind.value := listeners[kind.value] + {handler.value}];
      status := Accepted;
    }

    /** `off(eventType, handler?)`; the endpoint map is never touched. */
    method Off(eventType: string, handler: Option<Handler>) returns (status: Usage)
      modifies this`listeners
      ensures status == OffStatus(old(listeners), CallEventFromName(eventType))
      ensures listeners == AfterOff(old(listeners), CallEventFromName(eventType), handler)
      ensures endpoints == old(endpoints)
    {
      var kind := CallEventFromName(eventType);
      if kind.None? || kind.value !in listeners {
        return NotRegistered;
      }
      if handler.Some? {
        listeners := listeners[kind.value := listeners[kind.value] - {handler.value}];
      } else {
        listeners := listeners[kind.value := {}];
      }
      status := Accepted;
    }

    /** `_emit(eventType, event)`: every handler of the kind's set runs once;
        with no set the `handlers!` dereference throws. */
    method Emit(kind: CallEvent, event: Payload) returns (outcome: Outcome)
      ensures StrictEmit(outcome, this, CallKind(kind), listeners, kind, event)
    {
      if kind !in listeners {
        return Threw(this, CallKind(kind));
      }
      var trace := Fire(this, CallKind(kind), listeners[kind], event);
      outcome := Delivered(trace);
    }

    /** `_replaceCallIdWithCallInEvent(params)`. */
    method ReplaceCallIdWithCall(params: Payload) returns (p: Payload)
      ensures "callId" !in p && Get(p, "call") == Ref(this)
      ensures p.Keys == params.Keys - {"callId"} + {"call"}
      ensures forall f :: f in params && f != "callId" && f != "call" ==> p[f] == params[f]
    {
      p := params - {"callId"};
      p := p["call" := Ref(this)];
    }

    /** The Endpoint an event would be forwarded to, if any. */
    function ForwardTarget(event: string, params: Payload): Option<Endpoint>
      reads this
    {
      var id := Get(CallPayload(event, params, this), "endpointId");
      if RouteOf(event) == ForwardInfoUpdated && id in endpoints then Some(endpoints[id]) else None
    }

    /** The effect of `_handleEvent(event, params)` on this Call, its Endpoint
        map and its handlers. */
    twostate predicate Handled(event: string, params: Payload, new outcome: Outcome)
      reads this, endpoints.Values
    {
      var p := CallPayload(event, params, this);
      var id := Get(p, "endpointId");
      && callId == old(callId)
      && listeners == old(listeners)
      && match RouteOf(event)
         case AddEndpoint =>
           && id in endpoints
           && fresh(endpoints[id])
           && endpoints == old(endpoints)[id := endpoints[id]]
           && endpoints[id].id == id
           && endpoints[id].displayName == Get(p, "displayName")
           && endpoints[id].sipUri == Get(p, "sipUri")
           && endpoints[id].userName == Get(p, "userName")
           && endpoints[id].listeners == map[]
           && StrictEmit(outcome, this, CallKind(EndpointAdded), listeners, EndpointAdded,
                         AddedPayload(p, endpoints[id]))
         case EmitOnCall(k) =>
           && endpoints == old(endpoints)
           && StrictEmit(outcome, this, CallKind(k), listeners, k, p)
         case ForwardInfoUpdated =>
           && endpoints == old(endpoints)
           && (id in endpoints ==> endpoints[id].Handled(InfoUpdated, p, outcome))
           && (id !in endpoints ==> outcome == Delivered([]))
         case Drop =>
           && endpoints == old(endpoints)
           && outcome == Delivered([])
    }

    /** The EndpointAdded branch of `_handleEvent`: a new Endpoint built from
        the payload is filed under `endpointId` (replacing any earlier one),
        and only then is EndpointAdded emitted, so handlers find it in the map. */
    method AddEndpointAndEmit(p: Payload) returns (outcome: Outcome)
      modifies this`endpoints
      ensures var id := Get(p, "endpointId");
        && id in endpoints
        && fresh(endpoints[id])
        && endpoints == old(endpoints)[id := endpoints[id]]
        && endpoints[id].id == id
        && endpoints[id].displayName == Get(p, "displayName")
        && endpoints[id].sipUri == Get(p, "sipUri")
        && endpoints[id].userName == Get(p, "userName")
        && endpoints[id].listeners == map[]
        && StrictEmit(outcome, this, CallKind(EndpointAdded), listeners, EndpointAdded,
                      AddedPayload(p, endpoints[id]))
      ensures old(Valid()) ==> Valid()
    {
      var endpoint := new Endpoint(Get(p, "endpointId"), Get(p, "displayName"), Get(p, "sipUri"), Get(p, "userName"));
      endpoints := endpoints[Get(p, "endpointId") := endpoint];
      var event := p - {"endpointId", "displayName", "sipUri", "userName"};
      event := event["endpoint" := Ref(endpoint)];
      outcome := Emit(EndpointAdded, event);
    }

    /** The steps of `_handleEvent` that every event goes through: callId
        swapped for the call reference, the event name derived, and `name`
        stamped when it is a known kind. */
    method Prepare(event: string, params: Payload) returns (p: Payload, eventName: Option<string>)
      ensures p == CallPayload(event, params, this)
      ensures eventName == DerivedName(event)
    {
      p := ReplaceCallIdWithCall(params);
      eventName := None;
      if StartsWith(event, "Call") {
        eventName := Some(event[4..]);
      }
      if StartsWith(event, "Endpoint") {
        eventName := Some(event[8..]);
      }
      if eventName.Some? && IsEventName(eventName.value) {
        p := p["name" := Text(eventName.value)];
      }
    }

    /** The InfoUpdated branch of `_handleEvent`: the prepared payload goes
        to the Endpoint filed under `endpointId`, or nowhere when there is
        none.  Only that Endpoint may change, and no Endpoint's id does. */
    method ForwardInfoUpdatedTo(event: string, params: Payload, p: Payload) returns (outcome: Outcome)
      requires RouteOf(event) == ForwardInfoUpdated && p == CallPayload(event, params, this)
      modifies endpoints.Values
      ensures Handled(event, params, outcome)
      ensures forall x :: x in old(endpoints.Values) && Some(x) != old(ForwardTarget(event, params)) ==> unchanged(x)
      ensures forall x :: x in old(endpoints.Values) ==> x.id == old(x.id)
      ensures old(Valid()) ==> Valid()
    {
      var endpointId := Get(p, "endpointId");
      if endpointId in endpoints {
        var endpoint := endpoints[endpointId];
        outcome := endpoint.HandleEvent(InfoUpdated, p);
      } else {
        outcome := Delivered([]);
      }
    }

    /** `_handleEvent(event, params)`.  The source tests the derived name
        against each of the nine direct kinds in turn; here one test against
        DirectCallEvents stands for those nine branches. */
    method HandleEvent(event: string, params: Payload) returns (outcome: Outcome)
      modifies this`endpoints, endpoints.Values
      ensures Handled(event, params, outcome)
      ensures forall x :: x in old(endpoints.Values) && Some(x) != old(ForwardTarget(event, params)) ==> unchanged(x)
      ensures forall x :: x in old(endpoints.Values) ==> x.id == old(x.id)
      ensures old(Valid()) ==> Valid()
    {
      var p, eventName := Prepare(event, params);
      var kind := if eventName.Some? then CallEventFromName(eventName.value) else None;
      if kind == Some(EndpointAdded) {
        outcome := AddEndpointAndEmit(p);
        assert Handled(event, params, outcome);
      } else if kind.Some? && kind.value in DirectCallEvents {
        outcome := Emit(kind.value, p);
        assert Handled(event, params, outcome);
      } else if eventName.Some? && EndpointEventFromName(eventName.value) == Some(InfoUpdated) {
        outcome := ForwardInfoUpdatedTo(event, params, p);
      } else {
        outcome := Delivered([]);
        assert Handled(event, params, outcome);
      }
    }
  }
}
