/** The three closed sets of event kinds (ClientEventTypes, CallEventTypes,
    EndpointEventTypes) and their wire names.  In the TypeScript source every
    member's string value equals its key, so one name function serves both the
    `Object.keys` and the `Object.values` lookups. */
module EventTypes {
  import opened Wrappers

  /** Session-scoped events, www/Client/ClientEventTypes.ts. */
  datatype ClientEvent =
    | ConnectionEstablished
    | ConnectionFailed
    | ConnectionClosed
    | AuthResult
    | RefreshTokenResult
    | IncomingCall
    | SDKReady

  /** Call-scoped events, www/Call/CallEventTypes.ts. */
  datatype CallEvent =
    | Connected
    | Disconnected
    | EndpointAdded
    | Failed
    | CallOperationFailed
    | ICECompleted
    | ICETimeout
    | InfoReceived
    | MessageReceived
    | ProgressToneStart
    | ProgressToneStop

  /** Endpoint-scoped events, www/Call/EndpointEventTypes.ts. */
  datatype EndpointEvent = InfoUpdated | Removed

  /** An event kind of any of the three owners, used to label deliveries. */
  datatype EventKind =
    | ClientKind(client: ClientEvent)
    | CallKind(call: CallEvent)
    | EndpointKind(endpoint: EndpointEvent)

  function ClientEventName(k: ClientEvent): string
  {
    match k
    case ConnectionEstablished => "ConnectionEstablished"
    case ConnectionFailed => "ConnectionFailed"
    case ConnectionClosed => "ConnectionClosed"
    case AuthResult => "AuthResult"
    case RefreshTokenResult => "RefreshTokenResult"
    case IncomingCall => "IncomingCall"
    case SDKReady => "SDKReady"
  }

  function CallEventName(k: CallEvent): string
  {
    match k
    case Connected => "Connected"
    case Disconnected => "Disconnected"
    case EndpointAdded => "EndpointAdded"
    case Failed => "Failed"
    case CallOperationFailed => "CallOperationFailed"
    case ICECompleted => "ICECompleted"
    case ICETimeout => "ICETimeout"
    case InfoReceived => "InfoReceived"
    case MessageReceived => "MessageReceived"
    case ProgressToneStart => "ProgressToneStart"
    case ProgressToneStop => "ProgressToneStop"
  }

  function EndpointEventName(k: EndpointEvent): string
  {
    match k
    case InfoUpdated => "InfoUpdated"
    case Removed => "Removed"
  }

  /** The member of ClientEventTypes whose value is `s`, if any. */
  function ClientEventFromName(s: string): (r: Option<ClientEvent>)
    ensures r.Some? ==> ClientEventName(r.value) == s
  {
    if s == "ConnectionEstablished" then Some(ConnectionEstablished)
    else if s == "ConnectionFailed" then Some(ConnectionFailed)
    else if s == "ConnectionClosed" then Some(ConnectionClosed)
    else if s == "AuthResult" then Some(AuthResult)
    else if s == "RefreshTokenResult" then Some(RefreshTokenResult)
    else if s == "IncomingCall" then Some(IncomingCall)
    else if s == "SDKReady" then Some(SDKReady)
    else None
  }

  /** The member of CallEventTypes whose value is `s`, if any. */
  function CallEventFromName(s: string): (r: Option<CallEvent>)
    ensures r.Some? ==> CallEventName(r.value) == s
  {
    if s == "Connected" then Some(Connected)
    else if s == "Disconnected" then Some(Disconnected)
    else if s == "EndpointAdded" then Some(EndpointAdded)
    else if s == "Failed" then Some(Failed)
    else if s == "CallOperationFailed" then Some(CallOperationFailed)
    else if s == "ICECompleted" then Some(ICECompleted)
    else if s == "ICETimeout" then Some(ICETimeout)
    else if s == "InfoReceived" then Some(InfoReceived)
    else if s == "MessageReceived" then Some(MessageReceived)
    else if s == "ProgressToneStart" then Some(ProgressToneStart)
    else if s == "ProgressToneStop" then Some(ProgressToneStop)
    else None
  }

  /** The member of EndpointEventTypes whose value is `s`, if any. */
  function EndpointEventFromName(s: string): (r: Option<EndpointEvent>)
    ensures r.Some? ==> EndpointEventName(r.value) == s
  {
    if s == "InfoUpdated" then Some(InfoUpdated)
    else if s == "Removed" then Some(Removed)
    else None
  }

  /** Parsing a member's own name gives back that member: every enumerant is
      accepted by `on`, and no two enumerants share a name. */
  lemma ClientEventNameRoundTrip(k: ClientEvent)
    ensures ClientEventFromName(ClientEventName(k)) == Some(k)
  {
  }

  lemma CallEventNameRoundTrip(k: CallEvent)
    ensures CallEventFromName(CallEventName(k)) == Some(k)
  {
  }

  lemma EndpointEventNameRoundTrip(k: EndpointEvent)
    ensures EndpointEventFromName(EndpointEventName(k)) == Some(k)
  {
  }

  /** The names of the three enums, as sets. */
  const ClientEventNames: set<string> :=
    {"ConnectionEstablished", "ConnectionFailed", "ConnectionClosed", "AuthResult",
     "RefreshTokenResult", "IncomingCall", "SDKReady"}

  const CallEventNames: set<string> :=
    {"Connected", "Disconnected", "EndpointAdded", "Failed", "CallOperationFailed",
     "ICECompleted", "ICETimeout", "InfoReceived", "MessageReceived",
     "ProgressToneStart", "ProgressToneStop"}

  const EndpointEventNames: set<string> := {"InfoUpdated", "Removed"}

  /** A name is accepted exactly when it is one of the enum's values. */
  lemma ClientEventFromNameAccepts(s: string)
    ensures ClientEventFromName(s).Some? <==> s in ClientEventNames
  {
  }

  lemma CallEventFromNameAccepts(s: string)
    ensures CallEventFromName(s).Some? <==> s in CallEventNames
  {
  }

  lemma EndpointEventFromNameAccepts(s: string)
    ensures EndpointEventFromName(s).Some? <==> s in EndpointEventNames
  {
  }

  /** The Call and Endpoint kinds have no name in common, so a derived event
      name designates at most one of them. */
  lemma CallAndEndpointNamesDisjoint()
    ensures CallEventNames !! EndpointEventNames
  {
  }
}
