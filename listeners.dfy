/** The listener table shared by Client, Call and Endpoint: a map from event
    kind to a set of handlers, with the `on`/`off` contract the three classes
    implement identically, and the dispatch loop of `_emit`. */
module Listeners {
  import opened Wrappers
  import opened EventTypes
  import opened Payloads

  /** `_listeners: Map<kind, Set<Function>>`. */
  type Table<K> = map<K, set<Handler>>

  /** What `on`/`off` report: success, or the diagnostic a rejected call logs. */
  datatype Usage =
    | Accepted
    | NotAFunction     // `on` with a missing or non-function handler
    | UnknownKind      // `on` with a name outside the owner's enum
    | NotRegistered    // `off` for a kind that has no handler set

  /** The handlers registered for `k` (none when there is no set). */
  function Registered<K>(t: Table<K>, k: K): set<Handler>
  {
    if k in t then t[k] else {}
  }

  /** The verdict of `on(kind, handler)`: the handler is checked first, then
      the kind (`kind` is the parsed name, None when it is not an enumerant). */
  function OnStatus<K>(kind: Option<K>, handler: Option<Handler>): Usage
  {
    if handler.None? then NotAFunction
    else if kind.None? then UnknownKind
    else Accepted
  }

  /** The table after `on(kind, handler)`: the kind's set, created if needed,
      gains the handler; a rejected call changes nothing. */
  function AfterOn<K>(t: Table<K>, kind: Option<K>, handler: Option<Handler>): Table<K>
  {
    if OnStatus(kind, handler) != Accepted then t
    else t[kind.value := Registered(t, kind.value) + {handler.value}]
  }

  /** The verdict of `off(kind, handler?)`: nothing to do unless the kind has a
      set (an unknown name never has one). */
  function OffStatus<K>(t: Table<K>, kind: Option<K>): Usage
  {
    if kind.Some? && kind.value in t then Accepted else NotRegistered
  }

  /** The table after `off(kind, handler?)`: the given handler leaves the
      kind's set, or, with no handler, the set is replaced by an empty one. */
  function AfterOff<K>(t: Table<K>, kind: Option<K>, handler: Option<Handler>): Table<K>
  {
    if OffStatus(t, kind) != Accepted then t
    else if handler.Some? then t[kind.value := t[kind.value] - {handler.value}]
    else t[kind.value := {}]
  }

  /** `trace` invokes, on behalf of `emitter` and `kind`, each handler of `hs`
      exactly once with `event`, and nothing else (in no particular order). */
  ghost predicate FiresEachOnce(trace: seq<Delivery>, emitter: object, kind: EventKind,
                                hs: set<Handler>, event: Payload)
  {
    && (forall d :: d in trace ==> d.emitter == emitter && d.kind == kind && d.event == event)
    && multiset(HandlersOf(trace)) == multiset(hs)
  }

  /** `_emit` of Call and Endpoint: `handlers!.forEach(...)` on the kind's set,
      which throws when no set was ever registered for the kind. */
  ghost predicate StrictEmit<K>(o: Outcome, emitter: object, kind: EventKind,
                                t: Table<K>, k: K, event: Payload)
  {
    if k in t then o.Delivered? && FiresEachOnce(o.calls, emitter, kind, t[k], event)
    else o == Threw(emitter, kind)
  }

  /** `_emit` of Client: `if (handlers) handlers.forEach(...)`, so a kind
      that never had a set emits nothing and does not fail. */
  ghost predicate LenientEmit<K>(trace: seq<Delivery>, emitter: object, kind: EventKind,
                                 t: Table<K>, k: K, event: Payload)
  {
    if k in t then FiresEachOnce(trace, emitter, kind, t[k], event)
    else trace == []
  }

  /** `handlers.forEach(handler => handler(event))`: one invocation per member
      of the set.  The order is whatever the set iteration yields. */
  method Fire(emitter: object, kind: EventKind, hs: set<Handler>, event: Payload)
    returns (trace: seq<Delivery>)
    ensures FiresEachOnce(trace, emitter, kind, hs, event)
  {
    trace := [];
    var pending := hs;
    while pending != {}
      invariant pending <= hs
      invariant forall d :: d in trace ==> d.emitter == emitter && d.kind == kind && d.event == event
      invariant multiset(HandlersOf(trace)) + multiset(pending) == multiset(hs)
      decreases |pending|
    {
      var h :| h in pending;
      TakeOne(trace, Delivery(emitter, kind, h, event), pending);
      trace := trace + [Delivery(emitter, kind, h, event)];
      pending := pending - {h};
    }
  }

  /** Moving one handler from the pending set to the trace keeps the multiset
      of handlers seen so far plus those still pending. */
  lemma TakeOne(trace: seq<Delivery>, d: Delivery, pending: set<Handler>)
    requires d.handler in pending
    ensures multiset(HandlersOf(trace + [d])) + multiset(pending - {d.handler})
              == multiset(HandlersOf(trace)) + multiset(pending)
  {
    assert (trace + [d])[..|trace|] == trace;
    assert HandlersOf(trace + [d]) == HandlersOf(trace) + [d.handler];
    assert multiset(pending - {d.handler}) + multiset{d.handler} == multiset(pending);
  }

  /** Set semantics by identity: a handler registered (any number of times)
      runs exactly once per firing, and an unregistered one never runs. */
  lemma FiredOncePerRegistration(trace: seq<Delivery>, emitter: object, kind: EventKind,
                                 hs: set<Handler>, event: Payload, h: Handler)
    requires FiresEachOnce(trace, emitter, kind, hs, event)
    ensures multiset(HandlersOf(trace))[h] == if h in hs then 1 else 0
  {
  }

  /** Registering an accepted handler puts it in the kind's set, keeps every
      other handler of that kind, and leaves every other kind alone. */
  lemma OnAdds<K>(t: Table<K>, k: K, h: Handler)
    ensures Registered(AfterOn(t, Some(k), Some(h)), k) == Registered(t, k) + {h}
    ensures forall j :: j != k ==> Registered(AfterOn(t, Some(k), Some(h)), j) == Registered(t, j)
    ensures AfterOn(t, Some(k), Some(h)).Keys == t.Keys + {k}
  {
  }

  /** Registering the same handler twice is the same as registering it once. */
  lemma OnIdempotent<K>(t: Table<K>, kind: Option<K>, handler: Option<Handler>)
    ensures AfterOn(AfterOn(t, kind, handler), kind, handler) == AfterOn(t, kind, handler)
  {
  }

  /** A rejected `on` (bad handler or unknown kind) changes no table. */
  lemma OnRejectedIsNoOp<K>(t: Table<K>, kind: Option<K>, handler: Option<Handler>)
    requires handler.None? || kind.None?
    ensures OnStatus(kind, handler) != Accepted
    ensures AfterOn(t, kind, handler) == t
  {
  }

  /** `off` for a kind with no set is a no-op. */
  lemma OffUnregisteredIsNoOp<K>(t: Table<K>, kind: Option<K>, handler: Option<Handler>)
    requires kind.None? || kind.value !in t
    ensures OffStatus(t, kind) == NotRegistered
    ensures AfterOff(t, kind, handler) == t
  {
  }

  /** `off(k, h)` removes exactly `h` from `k`'s set; `off(k)` leaves `k` with an
      empty set; either way every other kind keeps its handlers. */
  lemma OffRemoves<K>(t: Table<K>, k: K, handler: Option<Handler>)
    requires k in t
    ensures AfterOff(t, Some(k), handler).Keys == t.Keys
    ensures Registered(AfterOff(t, Some(k), handler), k)
              == if handler.Some? then t[k] - {handler.value} else {}
    ensures forall j :: j != k ==> Registered(AfterOff(t, Some(k), handler), j) == Registered(t, j)
  {
  }

  /** `off(k, h)` undoes `on(k, h)` for a handler that was not registered
      before, except that `k` keeps a (possibly empty) set. */
  lemma OffUndoesOn<K>(t: Table<K>, k: K, h: Handler)
    requires h !in Registered(t, k)
    ensures Registered(AfterOff(AfterOn(t, Some(k), Some(h)), Some(k), Some(h)), k) == Registered(t, k)
    ensures AfterOff(AfterOn(t, Some(k), Some(h)), Some(k), Some(h)) == t[k := Registered(t, k)]
  {
  }

  /** After `off(k)` with no handler, firing `k` invokes nobody. */
  lemma FiringAfterClearIsSilent<K>(t: Table<K>, k: K, trace: seq<Delivery>, emitter: object,
                                    kind: EventKind, event: Payload)
    requires k in t
    requires FiresEachOnce(trace, emitter, kind, Registered(AfterOff(t, Some(k), None), k), event)
    ensures trace == []
  {
    assert |multiset(HandlersOf(trace))| == 0;
  }
}
