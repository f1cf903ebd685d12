/**
 The tracking client of mixpanel-uwp (class Mixpanel): it filters the caller's
 string dictionary into a JSON object, builds one payload per operation (track
 an event, set profile fields, add one Windows session), appends the encoded
 payload to a fixed endpoint URL, and reads success off the response text.

 Two collaborators are parameters, because their code is not part of the client:
 `encode` stands for JsonObject.ToString followed by UTF-8 and base64
 encoding, and `get` stands for HttpClient.GetAsync, from URL to response text.
 */
module Mixpanel {
  import opened Wrappers
  import opened Json
  import opened Strings

  /** The host part both endpoint URLs share; they differ at the first character after it. */
  const ApiHost: string := "http://api.mixpanel.com/"

  const TrackingUrl: string := "http://api.mixpanel.com/track/?verbose=1&data="
  const ProfileUpdateUrl: string := "http://api.mixpanel.com/engage/?verbose=1&data="

  const TokenProfileKey: string := "$token"
  const TokenEventKey: string := "token"
  const DistinctIdProfileKey: string := "$distinct_id"
  const DistinctIdEventKey: string := "distinct_id"
  const WindowsSessionsKey: string := "Windows sessions"
  const EventKey: string := "event"
  const PropertiesKey: string := "properties"
  const SetKey: string := "$set"
  const AddKey: string := "$add"

  /** The response fragment that signals an accepted call. */
  const SuccessMarker: string := "\"status\": 1"

  /** A Dictionary<string, string> in enumeration order; None is a null value. */
  type Params = seq<(string, Option<string>)>

  /** A client instance: the project token it attaches to every payload. */
  datatype Client = Client(token: string)

  /** The two endpoints a request can go to. */
  datatype Endpoint = Track | Engage

  function EndpointUrl(e: Endpoint): string
  {
    match e
    case Track => TrackingUrl
    case Engage => ProfileUpdateUrl
  }

  /** String.IsNullOrEmpty. */
  predicate IsNullOrEmpty(v: Option<string>)
  {
    v.None? || v.value == ""
  }

  /** The dictionary entries a payload keeps: those with a non-null, non-empty value. */
  predicate KeepsEntry(p: (string, Option<string>))
  {
    !IsNullOrEmpty(p.1)
  }

  /**
   DictionaryToJsonObject: one string member per entry with a non-null,
   non-empty value, in enumeration order; other entries are dropped.
   */
  function DictionaryToJsonObject(parameters: Params): (r: Members)
    ensures |r| <= |parameters|
    ensures forall i :: 0 <= i < |r| ==> r[i].1.JStr? && r[i].1.str != "" && (r[i].0, Some(r[i].1.str)) in parameters
  {
    if parameters == [] then []
    else
      var rest := DictionaryToJsonObject(parameters[1..]);
      assert forall p :: p in parameters && p != parameters[0] ==> p in parameters[1..];
      assert forall k :: k in Keys(parameters[1..]) ==> k in Keys(parameters) by {
        assert Keys(parameters) == [parameters[0].0] + Keys(parameters[1..]);
      }
      if KeepsEntry(parameters[0]) then
        [(parameters[0].0, JStr(parameters[0].1.value))] + rest
      else
        rest
  }

  /** The payload of updateProfile: `{$token, $distinct_id, $set: filtered parameters}`. */
  function UpdateProfilePayload(c: Client, distinctId: string, setParameters: Params): (r: Json)
    ensures r.JObj? && Keys(r.members) == [TokenProfileKey, DistinctIdProfileKey, SetKey]
    ensures r.members[0].1 == JStr(c.token) && r.members[1].1 == JStr(distinctId)
    ensures r.members[2].1 == JObj(DictionaryToJsonObject(setParameters))
  {
    var setParametersJsonObj := DictionaryToJsonObject(setParameters);
    JObj([(TokenProfileKey, JStr(c.token)),
          (DistinctIdProfileKey, JStr(distinctId)),
          (SetKey, JObj(setParametersJsonObj))])
  }

  /** The payload of incrementWindowsSessions: `{$token, $distinct_id, $add: {"Windows sessions": 1}}`. */
  function IncrementWindowsSessionsPayload(c: Client, distinctId: string): (r: Json)
    ensures r.JObj? && Keys(r.members) == [TokenProfileKey, DistinctIdProfileKey, AddKey]
    ensures r.members[0].1 == JStr(c.token) && r.members[1].1 == JStr(distinctId)
    ensures Lookup(r.members, AddKey) == Some(JObj([(WindowsSessionsKey, JNum(1))]))
  {
    var addObj := [(WindowsSessionsKey, JNum(1))];
    JObj([(TokenProfileKey, JStr(c.token)),
          (DistinctIdProfileKey, JStr(distinctId)),
          (AddKey, JObj(addObj))])
  }

  /**
   The payload of trackEvent: `{event, properties}` where properties are the
   filtered user properties followed by `token` and `distinct_id`.
   */
  function TrackEventPayload(c: Client, eventName: string, distinctId: string, properties: Params): (r: Json)
    ensures r.JObj? && Keys(r.members) == [EventKey, PropertiesKey]
    ensures r.members[0].1 == JStr(eventName)
    ensures r.members[1].1.JObj?
    ensures Keys(r.members[1].1.members) == Keys(DictionaryToJsonObject(properties)) + [TokenEventKey, DistinctIdEventKey]
  {
    var propertiesObj := DictionaryToJsonObject(properties)
                         + [(TokenEventKey, JStr(c.token)), (DistinctIdEventKey, JStr(distinctId))];
    KeysAppend(DictionaryToJsonObject(properties), [(TokenEventKey, JStr(c.token)), (DistinctIdEventKey, JStr(distinctId))]);
    JObj([(EventKey, JStr(eventName)), (PropertiesKey, JObj(propertiesObj))])
  }

  /** The request URL: the endpoint's fixed prefix followed by the encoded payload. */
  function RequestUrl(e: Endpoint, encode: Json -> string, payload: Json): string
  {
    EndpointUrl(e) + encode(payload)
  }

  function TrackEventUrl(c: Client, encode: Json -> string, eventName: string, distinctId: string, properties: Params): string
  {
    RequestUrl(Track, encode, TrackEventPayload(c, eventName, distinctId, properties))
  }

  function UpdateProfileUrl(c: Client, encode: Json -> string, distinctId: string, setParameters: Params): string
  {
    RequestUrl(Engage, encode, UpdateProfilePayload(c, distinctId, setParameters))
  }

  function IncrementWindowsSessionsUrl(c: Client, encode: Json -> string, distinctId: string): string
  {
    RequestUrl(Engage, encode, IncrementWindowsSessionsPayload(c, distinctId))
  }

  /** sendEventOrUpdate after the GET: success exactly when the body contains `"status": 1`. */
  function SendEventOrUpdate(body: string): (ok: bool)
    ensures ok <==> Occurs(body, SuccessMarker)
  {
    Contains(body, SuccessMarker)
  }

  /** updateProfile: build, encode and send the `$set` payload to the engage endpoint. */
  function UpdateProfile(c: Client, encode: Json -> string, get: string -> string,
                         distinctId: string, setParameters: Params): (ok: bool)
    ensures ok <==> Occurs(get(ProfileUpdateUrl + encode(UpdateProfilePayload(c, distinctId, setParameters))), SuccessMarker)
  {
    SendEventOrUpdate(get(UpdateProfileUrl(c, encode, distinctId, setParameters)))
  }

  /** incrementWindowsSessions: build, encode and send the `$add` payload to the engage endpoint. */
  function IncrementWindowsSessions(c: Client, encode: Json -> string, get: string -> string,
                                    distinctId: string): (ok: bool)
    ensures ok <==> Occurs(get(ProfileUpdateUrl + encode(IncrementWindowsSessionsPayload(c, distinctId))), SuccessMarker)
  {
    SendEventOrUpdate(get(IncrementWindowsSessionsUrl(c, encode, distinctId)))
  }

  /** trackEvent: build, encode and send the event payload to the track endpoint. */
  function TrackEvent(c: Client, encode: Json -> string, get: string -> string,
                      eventName: string, distinctId: string, properties: Params): (ok: bool)
    ensures ok <==> Occurs(get(TrackingUrl + encode(TrackEventPayload(c, eventName, distinctId, properties))), SuccessMarker)
  {
    SendEventOrUpdate(get(TrackEventUrl(c, encode, eventName, distinctId, properties)))
  }
}
