/** Event payloads as they cross from the native bridge into the event layer,
    handlers as opaque identities, and the trace of handler invocations an
    emission produces. */
module Payloads {
  import opened EventTypes

  /** A JavaScript property value.  `Undefined` is what reading an absent
      property yields; `Ref` is an object reference (the `call`/`endpoint`
      back-references the core attaches). */
  datatype Value =
    | Undefined
    | Null
    | Text(s: string)
    | Number(n: int)
    | Boolean(b: bool)
    | Record(fields: map<string, Value>)
    | Ref(obj: object)

  /** The `params` object of an event: property name to value. */
  type Payload = map<string, Value>

  /** `params.key`: the value of the property, or `undefined` when absent. */
  function Get(p: Payload, key: string): Value
  {
    if key in p then p[key] else Undefined
  }

  /** A registered handler function, known only by its identity. */
  datatype Handler = Handler(id: nat)

  /** One invocation `handler(event)` performed by `emitter`'s `_emit(kind, event)`. */
  datatype Delivery = Delivery(emitter: object, kind: EventKind, handler: Handler, event: Payload)

  /** What dispatching one event amounts to: the handler invocations it made,
      or the TypeError raised when `_emit` dereferences a missing handler set. */
  datatype Outcome =
    | Delivered(calls: seq<Delivery>)
    | Threw(emitter: object, kind: EventKind)

  /** The handlers of a trace, in invocation order. */
  function HandlersOf(calls: seq<Delivery>): (hs: seq<Handler>)
    ensures |hs| == |calls|
    ensures forall i :: 0 <= i < |calls| ==> hs[i] == calls[i].handler
  {
    if calls == [] then [] else HandlersOf(calls[..|calls| - 1]) + [calls[|calls| - 1].handler]
  }
}
