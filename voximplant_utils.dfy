/** The Android conversion helpers (src/android/VoximplantUtils.java): enum
    translations between the native SDK and the strings and codes JavaScript
    sees, and conversions between string maps and JSON objects. */
module AndroidUtils {
  import opened Wrappers

  // ---------------------------------------------------------------------
  // Enum conversions

  /** The native SDK's audio focus modes. */
  datatype RequestAudioFocusMode = RequestOnCallStart | RequestOnCallConnected

  /** The JavaScript enum value naming each mode (RequestAudioFocusMode in
      www/Enums.ts). */
  function AudioFocusModeName(mode: RequestAudioFocusMode): string
  {
    match mode
    case RequestOnCallStart => "REQUEST_ON_CALL_START"
    case RequestOnCallConnected => "REQUEST_ON_CALL_CONNECTED"
  }

  /** `convertStringToRequestAudioFocusMode`: only the connected mode's name
      selects it; every other string, its own name included, gives the
      start mode. */
  function ConvertStringToRequestAudioFocusMode(mode: string): (r: RequestAudioFocusMode)
    ensures r == RequestOnCallConnected <==> mode == AudioFocusModeName(RequestOnCallConnected)
  {
    if mode == "REQUEST_ON_CALL_CONNECTED" then RequestOnCallConnected
    else RequestOnCallStart
  }

  /** Each mode's JavaScript name converts back to that mode. */
  lemma AudioFocusModeRoundTrip(mode: RequestAudioFocusMode)
    ensures ConvertStringToRequestAudioFocusMode(AudioFocusModeName(mode)) == mode
  {
  }

  /** The native SDK's login errors; `UnlistedLoginError` stands for any
      constant the conversion does not name. */
  datatype LoginError =
    | InvalidPassword | AccountFrozen | InvalidUsername | Timeout
    | InvalidState | NetworkIssues | TokenExpired | InternalError
    | UnlistedLoginError(name: string)

  /** The login errors that have a code of their own. */
  predicate HasOwnCode(e: LoginError)
  {
    !e.InternalError? && !e.UnlistedLoginError?
  }

  /** `convertLoginErrorToInt`: the HTTP-like code reported to JavaScript. */
  function ConvertLoginErrorToInt(e: LoginError): (code: int)
    ensures code in {401, 403, 404, 408, 491, 503, 701, 500}
    ensures code == 500 <==> !HasOwnCode(e)
  {
    match e
    case InvalidPassword => 401
    case AccountFrozen => 403
    case InvalidUsername => 404
    case Timeout => 408
    case InvalidState => 491
    case NetworkIssues => 503
    case TokenExpired => 701
    case InternalError => 500
    case UnlistedLoginError(_) => 500
  }

  /** The seven named errors get pairwise distinct codes, so a code other
      than 500 identifies its error. */
  lemma LoginErrorCodesDistinct(e1: LoginError, e2: LoginError)
    requires HasOwnCode(e1) && HasOwnCode(e2)
    ensures ConvertLoginErrorToInt(e1) == ConvertLoginErrorToInt(e2) ==> e1 == e2
  {
  }

  /** The native SDK's connection states; `UnlistedClientState` stands for
      any constant the conversion does not name. */
  datatype ClientState =
    | Disconnected | Connecting | Connected | LoggingIn | LoggedIn
    | UnlistedClientState(name: string)

  /** The values of the JavaScript ClientState enum (www/Enums.ts). */
  const ClientStateValues: set<string> :=
    {"disconnected", "connecting", "connected", "logging_in", "logged_in"}

  /** `convertClientStateToString`: always one of the JavaScript values;
      a disconnected or unlisted state reads as "disconnected". */
  function ConvertClientStateToString(state: ClientState): (r: string)
    ensures r in ClientStateValues
    ensures state.Disconnected? || state.UnlistedClientState? ==> r == "disconnected"
  {
    match state
    case Connecting => "connecting"
    case Connected => "connected"
    case LoggingIn => "logging_in"
    case LoggedIn => "logged_in"
    case Disconnected => "disconnected"
    case UnlistedClientState(_) => "disconnected"
  }

  /** Distinct named states give distinct strings, and every JavaScript
      value is produced by some state. */
  lemma ClientStateStringsFaithful(s1: ClientState, s2: ClientState, v: string)
    requires !s1.UnlistedClientState? && !s2.UnlistedClientState?
    ensures ConvertClientStateToString(s1) == ConvertClientStateToString(s2) ==> s1 == s2
    ensures v in ClientStateValues ==> exists s :: ConvertClientStateToString(s) == v
  {
    if v in ClientStateValues {
      if v == "disconnected" { assert ConvertClientStateToString(Disconnected) == v; }
      else if v == "connecting" { assert ConvertClientStateToString(Connecting) == v; }
      else if v == "connected" { assert ConvertClientStateToString(Connected) == v; }
      else if v == "logging_in" { assert ConvertClientStateToString(LoggingIn) == v; }
      else { assert ConvertClientStateToString(LoggedIn) == v; }
    }
  }

  /** The video codecs a call can prefer. */
  datatype VideoCodec = VP8 | H264 | Auto

  /** The JavaScript enum value naming each codec (VideoCodec in www/Enums.ts). */
  function VideoCodecName(codec: VideoCodec): string
  {
    match codec
    case VP8 => "VP8"
    case H264 => "H264"
    case Auto => "AUTO"
  }

  /** `convertStringToVideoCodec`: "VP8" and "H264" select those codecs and
      anything else falls back to automatic choice. */
  function ConvertStringToVideoCodec(videoCodec: string): (r: VideoCodec)
    ensures r == VP8 <==> videoCodec == VideoCodecName(VP8)
    ensures r == H264 <==> videoCodec == VideoCodecName(H264)
  {
    if videoCodec == "VP8" then VP8
    else if videoCodec == "H264" then H264
    else Auto
  }

  /** Each codec's JavaScript name converts back to that codec. */
  lemma VideoCodecRoundTrip(codec: VideoCodec)
    ensures ConvertStringToVideoCodec(VideoCodecName(codec)) == codec
  {
  }

  // ---------------------------------------------------------------------
  // Map <-> JSON object conversions

  /** A member of a JSON object, as `getString` sees it: a string form, or a
      value whose read throws. */
  datatype Member = Readable(text: string) | Unreadable

  /** A JSON object: its names and members. */
  type JsonObject = map<string, Member>

  /** What `convertJSONObjectToMap` stores for one member. */
  function StringForm(m: Member): string
  {
    if m.Readable? then m.text else ""
  }

  /** `convertJSONObjectToMap(object)`: one entry per name of the object,
      whose value is the member's string form, or "" when it cannot be
      read. */
  method ConvertJsonObjectToMap(json: JsonObject) returns (result: map<string, string>)
    ensures result.Keys == json.Keys
    ensures forall key :: key in json ==> result[key] == StringForm(json[key])
    ensures result == JsonObjectToMap(json)
  {
    result := map[];
    var keys := json.Keys;
    while keys != {}
      invariant keys <= json.Keys
      invariant result.Keys == json.Keys - keys
      invariant forall key :: key in result ==> result[key] == StringForm(json[key])
      decreases |keys|
    {
      var key :| key in keys;
      var value := "";
      if json[key].Readable? {
        value := json[key].text;
      }
      result := result[key := value];
      keys := keys - {key};
    }
  }

  /** A Java `Map<String, String>`: possibly null, and holding possibly null
      keys and values. */
  type JavaStringMap = Option<map<Option<string>, Option<string>>>

  /** The non-null keys of a map. */
  function NamedKeys(m: map<Option<string>, Option<string>>): (ks: set<string>)
    ensures forall k :: k in ks <==> Some(k) in m
  {
    set key | key in m.Keys && key.Some? :: key.value
  }

  /** Whether some entry has a null key and a non-null value: `put` then
      throws, and the conversion gives up. */
  predicate HasNullName(m: map<Option<string>, Option<string>>)
  {
    None in m && m[None].Some?
  }

  /** The reference result of `convertMapToJSONObject`: null for a null or
      empty map or when a `put` throws; otherwise every entry with a
      non-null value, since `put` with a null value removes the name. */
  function MapToJsonObject(javaMap: JavaStringMap): (r: Option<JsonObject>)
    ensures r.Some? <==> javaMap.Some? && |javaMap.value| > 0 && !HasNullName(javaMap.value)
  {
    if javaMap.None? || |javaMap.value| == 0 || HasNullName(javaMap.value) then None
    else
      var m := javaMap.value;
      Some(map key | key in NamedKeys(m) && m[Some(key)].Some? :: Readable(m[Some(key)].value))
  }

  /** `convertMapToJSONObject(map)`: puts every entry into a new object. */
  method ConvertMapToJsonObject(javaMap: JavaStringMap) returns (r: Option<JsonObject>)
    ensures r == MapToJsonObject(javaMap)
  {
    if javaMap.None? || |javaMap.value| == 0 {
      return None;
    }
    var m := javaMap.value;
    var json: JsonObject := map[];
    var entries := m.Keys;
    while entries != {}
      invariant entries <= m.Keys
      invariant None in m && None !in entries ==> m[None].None?
      invariant forall key :: key in json ==>
                  Some(key) in m && Some(key) !in entries && m[Some(key)].Some? && json[key] == Readable(m[Some(key)].value)
      invariant forall key :: Some(key) in m && Some(key) !in entries && m[Some(key)].Some? ==> key in json
      decreases |entries|
    {
      var key :| key in entries;
      var value := m[key];
      if value.None? {
        if key.Some? {
          json := json - {key.value};
        }
      } else {
        if key.None? {
          return None;
        }
        json := json[key.value := Readable(value.value)];
      }
      entries := entries - {key};
    }
    assert json == MapToJsonObject(javaMap).value;
    r := Some(json);
  }

  /** Every non-null name with a non-null value reaches the object with its
      value; nothing else does. */
  lemma MapToJsonObjectContents(javaMap: JavaStringMap, key: string)
    requires MapToJsonObject(javaMap).Some?
    ensures key in MapToJsonObject(javaMap).value <==> Some(key) in javaMap.value && javaMap.value[Some(key)].Some?
    ensures key in MapToJsonObject(javaMap).value ==>
              MapToJsonObject(javaMap).value[key] == Readable(javaMap.value[Some(key)].value)
  {
  }

  /** A Java map holding exactly the entries of a map of strings. */
  function FromStrings(m: map<string, string>): (j: map<Option<string>, Option<string>>)
    ensures forall k :: k in j <==> k.Some? && k.value in m
    ensures forall k :: k in m ==> j[Some(k)] == Some(m[k])
  {
    map key | key in m :: Some(key) := Some(m[key])
  }

  /** The reference result of `convertJSONObjectToMap`. */
  function JsonObjectToMap(json: JsonObject): map<string, string>
  {
    map key | key in json :: StringForm(json[key])
  }

  /** A non-empty map of strings survives the trip to a JSON object and
      back unchanged. */
  lemma MapJsonRoundTrip(m: map<string, string>)
    requires |m| > 0
    ensures MapToJsonObject(Some(FromStrings(m))).Some?
    ensures JsonObjectToMap(MapToJsonObject(Some(FromStrings(m))).value) == m
  {
    var j := FromStrings(m);
    assert |j| > 0 by {
      var k :| k in m;
      assert Some(k) in j;
    }
    var o := MapToJsonObject(Some(j)).value;
    assert o.Keys == m.Keys;
  }
}
