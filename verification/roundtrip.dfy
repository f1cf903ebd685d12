/**
 Every request the client builds reads back, on the receiving side, as the
 endpoint and record it was built for.
 */
module RoundTrip {
  import opened Wrappers
  import opened Json
  import opened Mixpanel
  import opened Wire

  /** No kept user property is named like one of the `reserved` keys. */
  predicate AvoidsKeys(parameters: Params, reserved: set<string>)
  {
    forall p :: p in parameters && KeepsEntry(p) ==> p.0 !in reserved
  }

  /** A key a user property avoids does not occur among the filtered members. */
  lemma FilteredKeysAvoid(parameters: Params, reserved: set<string>, k: string)
    requires AvoidsKeys(parameters, reserved)
    requires k in reserved
    ensures k !in Keys(DictionaryToJsonObject(parameters))
  {
    var r := DictionaryToJsonObject(parameters);
    forall i | 0 <= i < |r|
      ensures Keys(r)[i] != k
    {
      assert r[i] in r;
    }
  }

  /** Filtered members all hold strings, and read back as the same members. */
  lemma FilteredReadBack(parameters: Params)
    ensures var r := DictionaryToJsonObject(parameters);
            StringFields(r).Some? && StringMembers(StringFields(r).value) == r
  {
  }

  lemma {:induction false} WithoutAppend(a: Members, b: Members, drop: set<string>)
    ensures Without(a + b, drop) == Without(a, drop) + Without(b, drop)
  {
    if a == [] {
      assert a + b == b;
    } else {
      assert (a + b)[1..] == a[1..] + b;
      WithoutAppend(a[1..], b, drop);
    }
  }

  lemma {:induction false} WithoutNothing(ms: Members, drop: set<string>)
    requires forall k :: k in Keys(ms) ==> k !in drop
    ensures Without(ms, drop) == ms
  {
    if ms != [] {
      assert Keys(ms) == [ms[0].0] + Keys(ms[1..]);
      WithoutNothing(ms[1..], drop);
      assert ms == [ms[0]] + ms[1..];
    }
  }

  lemma {:induction false} WithoutEverything(ms: Members, drop: set<string>)
    requires forall k :: k in Keys(ms) ==> k in drop
    ensures Without(ms, drop) == []
  {
    if ms != [] {
      assert Keys(ms) == [ms[0].0] + Keys(ms[1..]);
      WithoutEverything(ms[1..], drop);
    }
  }

  /** A request URL splits back into its endpoint and the encoded payload. */
  lemma ParseRequestUrl(e: Endpoint, encode: Json -> string, payload: Json)
    ensures ParseUrl(RequestUrl(e, encode, payload)) == Some((e, encode(payload)))
  {
    var url := RequestUrl(e, encode, payload);
    var data := encode(payload);
    match e
    case Track =>
      assert url[..|TrackingUrl|] == TrackingUrl;
      assert url[|TrackingUrl|..] == data;
    case Engage =>
      assert url[|ApiHost|] == 'e' != TrackingUrl[|ApiHost|];
      assert url[..|ProfileUpdateUrl|] == ProfileUpdateUrl;
      assert url[|ProfileUpdateUrl|..] == data;
  }

  /** trackEvent addresses the /track/ endpoint with the encoded event payload. */
  lemma TrackEventEndpoint(c: Client, encode: Json -> string, eventName: string, distinctId: string, properties: Params)
    ensures ParseUrl(TrackEventUrl(c, encode, eventName, distinctId, properties))
            == Some((Track, encode(TrackEventPayload(c, eventName, distinctId, properties))))
  {
    ParseRequestUrl(Track, encode, TrackEventPayload(c, eventName, distinctId, properties));
  }

  /** updateProfile addresses the /engage/ endpoint with the encoded `$set` payload. */
  lemma UpdateProfileEndpoint(c: Client, encode: Json -> string, distinctId: string, setParameters: Params)
    ensures ParseUrl(UpdateProfileUrl(c, encode, distinctId, setParameters))
            == Some((Engage, encode(UpdateProfilePayload(c, distinctId, setParameters))))
  {
    ParseRequestUrl(Engage, encode, UpdateProfilePayload(c, distinctId, setParameters));
  }

  /** incrementWindowsSessions addresses the /engage/ endpoint with the encoded `$add` payload. */
  lemma IncrementWindowsSessionsEndpoint(c: Client, encode: Json -> string, distinctId: string)
    ensures ParseUrl(IncrementWindowsSessionsUrl(c, encode, distinctId))
            == Some((Engage, encode(IncrementWindowsSessionsPayload(c, distinctId))))
  {
    ParseRequestUrl(Engage, encode, IncrementWindowsSessionsPayload(c, distinctId));
  }

  /**
   An event payload reads back as the event: its name, the distinct id, the
   client's token, and exactly the kept properties in order. User properties
   named `token` or `distinct_id` are excluded, since what the JSON library
   does with a repeated key is not part of this model.
   */
  lemma EventRoundTrip(c: Client, eventName: string, distinctId: string, properties: Params)
    requires AvoidsKeys(properties, {TokenEventKey, DistinctIdEventKey})
    ensures var r := ReadEvent(TrackEventPayload(c, eventName, distinctId, properties));
            && r.Some?
            && r.value.eventName == eventName
            && r.value.distinctId == distinctId
            && r.value.token == c.token
            && StringMembers(r.value.properties) == DictionaryToJsonObject(properties)
  {
    var f := DictionaryToJsonObject(properties);
    var props := f + [(TokenEventKey, JStr(c.token)), (DistinctIdEventKey, JStr(distinctId))];
    var ms := [(EventKey, JStr(eventName)), (PropertiesKey, JObj(props))];
    assert TrackEventPayload(c, eventName, distinctId, properties) == JObj(ms);
    LookupAt(ms, 0);
    LookupAt(ms, 1);
    PropertiesRoundTrip(properties, c.token, distinctId);
    var p := ReadEventProperties(props).value;
    assert ReadEvent(JObj(ms)) == Some(EventRecord(eventName, p.1, p.0, p.2));
  }

  /** The properties object of an event reads back as token, distinct id and the kept properties. */
  lemma PropertiesRoundTrip(properties: Params, token: string, distinctId: string)
    requires AvoidsKeys(properties, {TokenEventKey, DistinctIdEventKey})
    ensures var f := DictionaryToJsonObject(properties);
            var r := ReadEventProperties(f + [(TokenEventKey, JStr(token)), (DistinctIdEventKey, JStr(distinctId))]);
            && r.Some?
            && r.value.0 == token
            && r.value.1 == distinctId
            && StringMembers(r.value.2) == f
  {
    var f := DictionaryToJsonObject(properties);
    var tail := [(TokenEventKey, JStr(token)), (DistinctIdEventKey, JStr(distinctId))];
    TailLookups(properties, tail);
    TailDropped(f, tail);
    FilteredReadBack(properties);
  }

  /** The appended token and distinct-id members are the ones lookups find. */
  lemma TailLookups(properties: Params, tail: Members)
    requires AvoidsKeys(properties, {TokenEventKey, DistinctIdEventKey})
    requires |tail| == 2 && tail[0].0 == TokenEventKey && tail[1].0 == DistinctIdEventKey
    ensures Lookup(DictionaryToJsonObject(properties) + tail, TokenEventKey) == Some(tail[0].1)
    ensures Lookup(DictionaryToJsonObject(properties) + tail, DistinctIdEventKey) == Some(tail[1].1)
  {
    var drop := {TokenEventKey, DistinctIdEventKey};
    var f := DictionaryToJsonObject(properties);
    FilteredKeysAvoid(properties, drop, TokenEventKey);
    FilteredKeysAvoid(properties, drop, DistinctIdEventKey);
    LookupAppend(f, tail, TokenEventKey);
    LookupAppend(f, tail, DistinctIdEventKey);
  }

  /** Dropping the token and distinct-id keys leaves exactly the user members. */
  lemma TailDropped(f: Members, tail: Members)
    requires forall k :: k in Keys(f) ==> k !in {TokenEventKey, DistinctIdEventKey}
    requires |tail| == 2 && tail[0].0 == TokenEventKey && tail[1].0 == DistinctIdEventKey
    ensures Without(f + tail, {TokenEventKey, DistinctIdEventKey}) == f
  {
    var drop := {TokenEventKey, DistinctIdEventKey};
    WithoutAppend(f, tail, drop);
    WithoutNothing(f, drop);
    WithoutEverything(tail, drop);
  }

  /** A profile update payload reads back as a `$set` of exactly the kept parameters. */
  lemma UpdateProfileRoundTrip(c: Client, distinctId: string, setParameters: Params)
    ensures var r := ReadProfile(UpdateProfilePayload(c, distinctId, setParameters));
            && r.Some?
            && r.value.token == c.token
            && r.value.distinctId == distinctId
            && r.value.op.Set?
            && StringMembers(r.value.op.fields) == DictionaryToJsonObject(setParameters)
  {
    FilteredReadBack(setParameters);
  }

  /** The increment payload reads back as adding 1 to "Windows sessions" and nothing else. */
  lemma IncrementRoundTrip(c: Client, distinctId: string)
    ensures ReadProfile(IncrementWindowsSessionsPayload(c, distinctId))
            == Some(ProfileRecord(c.token, distinctId, Add([(WindowsSessionsKey, 1)])))
  {
    var ms := IncrementWindowsSessionsPayload(c, distinctId).members;
    LookupAt(ms, 0);
    LookupAt(ms, 1);
    LookupAt(ms, 2);
    assert Keys(ms) == [TokenProfileKey, DistinctIdProfileKey, AddKey];
    assert SetKey !in Keys(ms);
    assert Lookup(ms, SetKey) == None;
    var add := [(WindowsSessionsKey, JNum(1))];
    assert NumberFields(add[1..]) == Some([]);
    assert [(WindowsSessionsKey, 1)] + [] == [(WindowsSessionsKey, 1)];
    assert NumberFields(add) == Some([(WindowsSessionsKey, 1)]);
  }

  /**
   An event payload carries exactly one token field and one distinct-id field,
   named `token` and `distinct_id` inside its properties; the profile names
   `$token` and `$distinct_id` appear nowhere in it.
   */
  lemma EventTokenFields(c: Client, eventName: string, distinctId: string, properties: Params)
    requires AvoidsKeys(properties, {TokenEventKey, DistinctIdEventKey, TokenProfileKey, DistinctIdProfileKey})
    ensures var ev := TrackEventPayload(c, eventName, distinctId, properties);
            var props := ev.members[1].1.members;
            && multiset(Keys(props))[TokenEventKey] == 1
            && multiset(Keys(props))[DistinctIdEventKey] == 1
            && TokenProfileKey !in Keys(props) && DistinctIdProfileKey !in Keys(props)
            && TokenProfileKey !in Keys(ev.members) && DistinctIdProfileKey !in Keys(ev.members)
  {
    var reserved := {TokenEventKey, DistinctIdEventKey, TokenProfileKey, DistinctIdProfileKey};
    var fk := Keys(DictionaryToJsonObject(properties));
    FilteredKeysAvoid(properties, reserved, TokenEventKey);
    FilteredKeysAvoid(properties, reserved, DistinctIdEventKey);
    FilteredKeysAvoid(properties, reserved, TokenProfileKey);
    FilteredKeysAvoid(properties, reserved, DistinctIdProfileKey);
    assert multiset(fk + [TokenEventKey, DistinctIdEventKey]) == multiset(fk) + multiset{TokenEventKey, DistinctIdEventKey};
  }

  /**
   A profile update or increment payload carries exactly one token field and
   one distinct-id field at its top level, named `$token` and `$distinct_id`;
   the event names `token` and `distinct_id` do not appear there.
   */
  lemma ProfileTokenFields(c: Client, distinctId: string, setParameters: Params)
    ensures var up := UpdateProfilePayload(c, distinctId, setParameters);
            && multiset(Keys(up.members))[TokenProfileKey] == 1
            && multiset(Keys(up.members))[DistinctIdProfileKey] == 1
            && TokenEventKey !in Keys(up.members) && DistinctIdEventKey !in Keys(up.members)
    ensures var inc := IncrementWindowsSessionsPayload(c, distinctId);
            && multiset(Keys(inc.members))[TokenProfileKey] == 1
            && multiset(Keys(inc.members))[DistinctIdProfileKey] == 1
            && TokenEventKey !in Keys(inc.members) && DistinctIdEventKey !in Keys(inc.members)
  {
  }
}
