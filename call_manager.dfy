/** The JavaScript-side registry of live calls (www/Call/CallManager.ts): a
    process-wide singleton mapping call identifiers to Call objects, through
    which every call-scoped bridge event reaches its Call. */
module CallManagers {
  import opened Wrappers
  import opened Payloads
  import opened Endpoints
  import opened Calls

  class CallManager {
    var calls: map<Value, Call>

    /** The Endpoints of all registered calls. */
    ghost function EndpointObjects(): set<Endpoint>
      reads this, calls.Values
    {
      set c, e | c in calls.Values && e in c.endpoints.Values :: e
    }

    /** Every Call is filed under its own identifier, and files each of its
        Endpoints under the Endpoint's own identifier, so any registered
        call may list its Endpoints. */
    ghost predicate Valid()
      reads this, calls.Values, EndpointObjects()
    {
      forall k :: k in calls ==> calls[k].callId == k && calls[k].Valid()
    }

    /** The private constructor: the registry starts empty. */
    constructor ()
      ensures calls == map[]
      ensures Valid()
    {
      calls := map[];
    }

    /** `addCall(call)`: the call is filed under its `callId`, replacing any
        call registered under the same identifier; nothing else changes. */
    method AddCall(call: Call)
      modifies this`calls
      ensures calls == old(calls)[call.callId := call]
      ensures old(Valid()) && call.Valid() ==> Valid()
    {
      calls := calls[call.callId := call];
    }

    /** The effect of `_handleCallEvent(event, params)`: the registry itself
        is unchanged; the Call filed under `params.callId` handles the event,
        and an event for an unknown call is dropped. */
    twostate predicate Routed(event: string, params: Payload, new outcome: Outcome)
      reads this, calls.Values, EndpointObjects()
    {
      var id := Get(params, "callId");
      && calls == old(calls)
      && (id in calls ==> calls[id].Handled(event, params, outcome))
      && (id !in calls ==> outcome == Delivered([]))
    }

    /** `_handleCallEvent(event, params)`: look the call up by `params.callId`
        and hand it the event; a miss is silently ignored. */
    method HandleCallEvent(event: string, params: Payload) returns (outcome: Outcome)
      modifies calls.Values, EndpointObjects()
      ensures Routed(event, params, outcome)
      ensures var id := Get(params, "callId");
        forall c :: c in old(calls.Values) && (id !in old(calls) || c != old(calls)[id]) ==> unchanged(c)
      ensures var id := Get(params, "callId");
        forall x :: x in old(EndpointObjects()) && (id !in old(calls) || Some(x) != old(calls[id].ForwardTarget(event, params))) ==> unchanged(x)
      ensures Get(params, "callId") !in old(calls) ==> unchanged(old(calls.Values)) && unchanged(old(EndpointObjects()))
      ensures var id := Get(params, "callId");
        id in old(calls) && old(calls[id].Valid()) ==> calls[id].Valid()
      ensures old(Valid()) ==> Valid()
    {
      var callId := Get(params, "callId");
      if callId in calls {
        var call := calls[callId];
        outcome := call.HandleEvent(event, params);
      } else {
        outcome := Delivered([]);
      }
    }
  }

  /** The static `_instance` slot behind `CallManager.getInstance()`. */
  class CallManagerSlot {
    var instance: CallManager?

    constructor ()
      ensures instance == null
    {
      instance := null;
    }

    /** `getInstance()`: the first call creates an empty registry, every later
        call returns that same registry untouched. */
    method GetInstance() returns (m: CallManager)
      modifies this
      ensures instance == m
      ensures old(instance) != null ==> m == old(instance)
      ensures old(instance) == null ==> fresh(m) && m.calls == map[] && m.Valid()
    {
      if instance == null {
        instance := new CallManager();
      }
      m := instance;
    }
  }
}
