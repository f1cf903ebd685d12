# mixpanel-uwp tracking client, modelled in Dafny

This project models the tracking client of mixpanel-uwp (class `Mixpanel` in
`mixpanel-uwp/Mixpanel.cs`): a client holding a project token that sends
analytics events and profile updates to the Mixpanel HTTP API as base64-encoded
JSON appended to a GET URL.

What is modelled:

- **Parameter filtering** (`DictionaryToJsonObject`): a `Dictionary<string, string>`
  becomes a JSON object holding one string member per entry whose value is neither
  null nor empty, in enumeration order.
- **Payloads**: `trackEvent` builds `{event, properties{…user properties, token, distinct_id}}`;
  `updateProfile` builds `{$token, $distinct_id, $set{…}}`; `incrementWindowsSessions`
  builds `{$token, $distinct_id, $add{"Windows sessions": 1}}`.
- **Request URLs**: events go to `http://api.mixpanel.com/track/?verbose=1&data=`,
  profile operations to `http://api.mixpanel.com/engage/?verbose=1&data=`, each followed
  by the encoded payload.
- **Response interpretation** (`sendEventOrUpdate`): a call succeeded exactly when the
  response text contains `"status": 1`.

Modules:

- `Wrappers` (wrappers.dfy): `Option`.
- `Json` (json.dfy): the JSON values the client builds (`JStr`, `JNum`, `JObj` with
  ordered members), `Keys`, first-match `Lookup` and lemmas about them.
- `Strings` (strings.dfy): `Contains`, a substring search proved equal to the
  "occurs somewhere" specification `Occurs`.
- `Mixpanel` (mixpanel.dfy): the client: constants, `Client`, the filter, the three
  payload builders, the URLs, `SendEventOrUpdate` and the three public operations.
- `Filter` (filter.dfy): order, contents and lookup properties of the filter.
- `Wire` (wire.dfy): the receiving side, used as the builders' partner: `ParseUrl`
  splits a URL into endpoint and data, `ReadEvent` and `ReadProfile` read a payload
  back as an event record or a profile update record.
- `RoundTrip` (roundtrip.dfy): every URL the client builds reads back as its endpoint
  and encoded payload; every profile payload reads back as the record it was built from,
  and so does every event payload when no kept user property uses a reserved key name
  (`token`, `distinct_id`); the token-field invariant.
- `Response` (response.dfy): properties of the success test.
- `Scenarios` (scenarios.dfy): fixed inputs with their exact payloads.

Modelling choices:

- A C# dictionary is a sequence of `(key, value)` pairs in enumeration order, with
  `None` for a null value. Dictionary keys are distinct; the lemmas that need it say so.
- `JsonObject.Add` appends a member. `JsonValue.CreateNumberValue(1)` is the integer `JNum(1)`.
- The encoding `JsonObject.ToString()` + UTF-8 + `Convert.ToBase64String` is the
  parameter `encode: Json -> string`; `HttpClient.GetAsync` followed by reading the
  content as text is the parameter `get: string -> string` from URL to response body.
- The async operations are plain functions returning the boolean result.

## Model

The URL builders `Mixpanel.RequestUrl`, `Mixpanel.TrackEventUrl`, `Mixpanel.UpdateProfileUrl` and
`Mixpanel.IncrementWindowsSessionsUrl` (Mixpanel.cs:57, 79, 104) only compute; their behaviour is
stated by the rows for `RoundTrip.ParseRequestUrl` and the three `RoundTrip.*Endpoint` lemmas.

| member | source | states |
|---|---|---|
| Mixpanel.DictionaryToJsonObject | mixpanel-uwp/Mixpanel.cs:131-140 | the object has at most as many members as the dictionary has entries, and every member is a non-empty string value paired with its key exactly as in some input entry, so no key or value is invented |
| Filter.FilterKeeps | mixpanel-uwp/Mixpanel.cs:134-138 | every entry whose value is non-null and non-empty appears in the object as a string member with the same key and value |
| Filter.FilterAppend | mixpanel-uwp/Mixpanel.cs:134-138 | filtering a concatenation is the concatenation of the filtered parts, so kept entries stay in enumeration order |
| Filter.FilterSingle | mixpanel-uwp/Mixpanel.cs:136-137 | one entry yields one string member with its value when the value is non-null and non-empty, and nothing otherwise |
| Filter.FilterDistinct | mixpanel-uwp/Mixpanel.cs:131-140 | the filtered object of a dictionary has no repeated key |
| Filter.FilterLookup | mixpanel-uwp/Mixpanel.cs:134-138 | looking a key up in the filtered object gives the dictionary's value as a string exactly when that value is non-null and non-empty, and nothing otherwise |
| Mixpanel.UpdateProfilePayload | mixpanel-uwp/Mixpanel.cs:49-53 | the profile payload has exactly the keys `$token`, `$distinct_id`, `$set` in that order, holding the token, the distinct id and the filtered parameters |
| Mixpanel.IncrementWindowsSessionsPayload | mixpanel-uwp/Mixpanel.cs:68-75 | the increment payload has exactly the keys `$token`, `$distinct_id`, `$add` in order, and `$add` is `{"Windows sessions": 1}` whatever the distinct id |
| Mixpanel.TrackEventPayload | mixpanel-uwp/Mixpanel.cs:93-100 | the event payload has exactly the keys `event`, `properties` in order; `event` is the event name; the properties' keys are the kept user keys followed by `token` and `distinct_id` |
| Mixpanel.SendEventOrUpdate | mixpanel-uwp/Mixpanel.cs:117-123 | a response body is a success exactly when `"status": 1` occurs in it as a contiguous substring |
| Strings.Contains | mixpanel-uwp/Mixpanel.cs:117 | the left-to-right scan answers true exactly when the pattern occurs at some position of the text |
| Mixpanel.UpdateProfile | mixpanel-uwp/Mixpanel.cs:47-59 | updateProfile succeeds exactly when the body fetched for the engage prefix plus the encoded `$set` payload contains `"status": 1` |
| Mixpanel.IncrementWindowsSessions | mixpanel-uwp/Mixpanel.cs:66-81 | incrementWindowsSessions succeeds exactly when the body fetched for the engage prefix plus the encoded `$add` payload contains `"status": 1` |
| Mixpanel.TrackEvent | mixpanel-uwp/Mixpanel.cs:90-106 | trackEvent succeeds exactly when the body fetched for the track prefix plus the encoded event payload contains `"status": 1` |
| RoundTrip.ParseRequestUrl | mixpanel-uwp/Mixpanel.cs:16-17 | a request URL splits back into the endpoint it was built for and the encoded payload; the two prefixes cannot be confused |
| RoundTrip.TrackEventEndpoint | mixpanel-uwp/Mixpanel.cs:102-104 | an event request addresses the /track/ endpoint and carries the encoded event payload |
| RoundTrip.UpdateProfileEndpoint | mixpanel-uwp/Mixpanel.cs:55-57 | a profile update request addresses the /engage/ endpoint and carries the encoded `$set` payload |
| RoundTrip.IncrementWindowsSessionsEndpoint | mixpanel-uwp/Mixpanel.cs:77-79 | an increment request addresses the /engage/ endpoint and carries the encoded `$add` payload |
| RoundTrip.EventRoundTrip | mixpanel-uwp/Mixpanel.cs:93-100 | an event payload reads back as its event name, distinct id, the client token and exactly the kept properties in order, when no kept property is named `token` or `distinct_id` |
| RoundTrip.PropertiesRoundTrip | mixpanel-uwp/Mixpanel.cs:97-99 | the properties object reads back as the client token, the distinct id and exactly the kept user properties |
| RoundTrip.UpdateProfileRoundTrip | mixpanel-uwp/Mixpanel.cs:49-53 | a profile update payload reads back as a `$set` of exactly the kept parameters, with the client token and the distinct id |
| RoundTrip.IncrementRoundTrip | mixpanel-uwp/Mixpanel.cs:68-75 | the increment payload reads back as adding 1 to "Windows sessions" and nothing else, with the client token and the distinct id |
| RoundTrip.EventTokenFields | mixpanel-uwp/Mixpanel.cs:97-99 | when no kept user property is named `token`, `distinct_id`, `$token` or `$distinct_id`, an event's properties hold exactly one `token` and one `distinct_id` field, and `$token`/`$distinct_id` appear nowhere in the event |
| Scenarios.ProfileKeyNameInEvent | mixpanel-uwp/Mixpanel.cs:134-137 | a caller property named `$token` is copied into an event's properties like any other non-empty property |
| RoundTrip.ProfileTokenFields | mixpanel-uwp/Mixpanel.cs:49-53 | for every input, a profile update and an increment each hold exactly one `$token` and one `$distinct_id` field at the top level, and no `token`/`distinct_id` there |
| Response.MarkerAnywhere | mixpanel-uwp/Mixpanel.cs:117-118 | any body with `"status": 1` somewhere in it is a success |
| Response.AcceptedInContext | mixpanel-uwp/Mixpanel.cs:117-118 | text added before or after a successful body keeps it successful |
| Response.NoOneRejected | mixpanel-uwp/Mixpanel.cs:117-123 | a body with no digit 1 in it, such as a `"status": 0` reply or an unrelated error page, is a failure |
| Response.StatusOneAccepted | mixpanel-uwp/Mixpanel.cs:117-118 | the reply `{"status": 1}` is a success |
| Response.StatusZeroRejected | mixpanel-uwp/Mixpanel.cs:119-123 | the service's verbose reply `{"status": 0, "error": null}` is a failure |
| Response.CompactStatusRejected | mixpanel-uwp/Mixpanel.cs:117 | the test is textual: `{"status":1}` without the space is a failure |
| Scenarios.TrackEventWithEmptyProperty | mixpanel-uwp/Mixpanel.cs:93-100 | token T1, id U1 and properties a=1, b="" give exactly `{"event":"E","properties":{"a":"1","token":"T1","distinct_id":"U1"}}` |
| Scenarios.UpdateProfileWithNullValue | mixpanel-uwp/Mixpanel.cs:49-53 | a null parameter value is dropped from `$set` like an empty one |

## Left out

- HttpClient construction and its cache policy (Mixpanel.cs:35-38): transport configuration through a platform library; the transport is the parameter `get`.
- The GET itself (Mixpanel.cs:115) and the async/await plumbing: network I/O; the operations are plain functions of the response text.
- The failure log line (Mixpanel.cs:121): a side effect that does not change the result.
- The JSON text produced by `JsonObject.ToString()` and the base64 encoding (Mixpanel.cs:149): library calls whose code is not shown; they are the parameter `encode`.
- What `JsonObject.Add` does on a repeated key: library behaviour not shown. `JObj` appends; the event round-trip lemmas, and the `token`/`distinct_id` part of RoundTrip.EventTokenFields, require that no kept user property is named `token` or `distinct_id`, the keys the client adds to the properties itself.
- RoundTrip.EventTokenFields: also requires that no kept user property is named `$token` or `$distinct_id`, because the client copies such a property into the event's properties unchanged (Scenarios.ProfileKeyNameInEvent); that "neither `$token` nor `$distinct_id` appears" in an event holds only for inputs without such keys.
- Dictionary enumeration order: unspecified by the library; the dictionary is given as a sequence in its enumeration order.
- `JsonValue.CreateNumberValue` builds a double; the model uses the integer 1, the only number the client builds.
- Null arguments (Mixpanel.cs:51-52, 95, 98-99, 134): a null dictionary makes the `foreach` throw, and a null token, event name or distinct id reaches `JsonValue.CreateStringValue`; the model's strings and dictionaries cannot be null, because these are caller errors that end in an exception rather than a result.
- The `new Uri(...)` step (Mixpanel.cs:57, 79, 104): the URL stays the concatenated string; URI parsing and its possible exception belong to the platform library, whose code is not shown.
- Mixpanel.UpdateProfile: states the result in terms of the response body, not of the network; exceptions from the transport are not modelled.
- Mixpanel.IncrementWindowsSessions: as for UpdateProfile, transport exceptions are not modelled.
- Mixpanel.TrackEvent: as for UpdateProfile, transport exceptions are not modelled.
