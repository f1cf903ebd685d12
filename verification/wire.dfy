/**
 The receiving side of the protocol: how a request URL splits into endpoint and
 data, and how a decoded payload reads back as the event record or profile
 update record it carries. These readers are the partners of the client's
 builders: module RoundTrip proves that every payload the client builds reads
 back as the record it was built from.
 */
module Wire {
  import opened Wrappers
  import opened Json
  import opened Mixpanel

  /** An event: its name, who did it, for which project, with which string properties. */
  datatype EventRecord = EventRecord(eventName: string, distinctId: string, token: string,
                                     properties: seq<(string, string)>)

  /** A profile operation: set string fields, or add to numeric counters. */
  datatype ProfileOp = Set(fields: seq<(string, string)>) | Add(counters: seq<(string, int)>)

  datatype ProfileRecord = ProfileRecord(token: string, distinctId: string, op: ProfileOp)

  /** String fields as JSON object members. */
  function StringMembers(fields: seq<(string, string)>): (ms: Members)
  {
    seq(|fields|, i requires 0 <= i < |fields| => (fields[i].0, JStr(fields[i].1)))
  }

  /** Reads members that all hold strings; None when one holds another kind of value. */
  function StringFields(ms: Members): (r: Option<seq<(string, string)>>)
    ensures r.Some? <==> forall m :: m in ms ==> m.1.JStr?
    ensures r.Some? ==> StringMembers(r.value) == ms
  {
    if ms == [] then Some([])
    else if !ms[0].1.JStr? then None
    else
      assert forall m :: m in ms[1..] ==> m in ms;
      assert forall m :: m in ms ==> m == ms[0] || m in ms[1..];
      match StringFields(ms[1..])
      case None => None
      case Some(rest) =>
        assert StringMembers([(ms[0].0, ms[0].1.str)] + rest) == [ms[0]] + ms[1..];
        Some([(ms[0].0, ms[0].1.str)] + rest)
  }

  /** Reads members that all hold numbers; None when one holds another kind of value. */
  function NumberFields(ms: Members): (r: Option<seq<(string, int)>>)
    ensures r.Some? <==> forall m :: m in ms ==> m.1.JNum?
    ensures r.Some? ==> |r.value| == |ms| && forall i :: 0 <= i < |ms| ==> ms[i] == (r.value[i].0, JNum(r.value[i].1))
  {
    if ms == [] then Some([])
    else if !ms[0].1.JNum? then None
    else
      assert forall m :: m in ms[1..] ==> m in ms;
      assert forall m :: m in ms ==> m == ms[0] || m in ms[1..];
      match NumberFields(ms[1..])
      case None => None
      case Some(rest) => Some([(ms[0].0, ms[0].1.num)] + rest)
  }

  /** The members whose key is not in `drop`, in order. */
  function Without(ms: Members, drop: set<string>): (r: Members)
    ensures forall m :: m in r <==> m in ms && m.0 !in drop
  {
    if ms == [] then []
    else
      assert forall m :: m in ms ==> m == ms[0] || m in ms[1..];
      if ms[0].0 in drop then Without(ms[1..], drop) else [ms[0]] + Without(ms[1..], drop)
  }

  /** The endpoint a URL addresses and the data after the endpoint's prefix. */
  function ParseUrl(url: string): Option<(Endpoint, string)>
  {
    if |TrackingUrl| <= |url| && url[..|TrackingUrl|] == TrackingUrl then
      Some((Track, url[|TrackingUrl|..]))
    else if |ProfileUpdateUrl| <= |url| && url[..|ProfileUpdateUrl|] == ProfileUpdateUrl then
      Some((Engage, url[|ProfileUpdateUrl|..]))
    else
      None
  }

  /** Reads an event's properties object: the token, the distinct id, and the remaining string properties. */
  function ReadEventProperties(ps: Members): Option<(string, string, seq<(string, string)>)>
  {
    var token := Lookup(ps, TokenEventKey);
    var id := Lookup(ps, DistinctIdEventKey);
    var user := StringFields(Without(ps, {TokenEventKey, DistinctIdEventKey}));
    if token.Some? && token.value.JStr? && id.Some? && id.value.JStr? && user.Some? then
      Some((token.value.str, id.value.str, user.value))
    else
      None
  }

  /** Reads an event payload: `event` names it, `properties` holds token, distinct_id and string properties. */
  function ReadEvent(j: Json): Option<EventRecord>
  {
    if !j.JObj? then None
    else
      var name := Lookup(j.members, EventKey);
      var props := Lookup(j.members, PropertiesKey);
      if !(name.Some? && name.value.JStr? && props.Some? && props.value.JObj?) then None
      else
        match ReadEventProperties(props.value.members)
        case None => None
        case Some((token, id, user)) => Some(EventRecord(name.value.str, id, token, user))
  }

  /** Reads a profile payload: `$token`, `$distinct_id`, then a `$set` or an `$add` object. */
  function ReadProfile(j: Json): Option<ProfileRecord>
  {
    if !j.JObj? then None
    else
      var token := Lookup(j.members, TokenProfileKey);
      var id := Lookup(j.members, DistinctIdProfileKey);
      if !(token.Some? && token.value.JStr? && id.Some? && id.value.JStr?) then None
      else
        var setObj := Lookup(j.members, SetKey);
        var addObj := Lookup(j.members, AddKey);
        if setObj.Some? then
          if setObj.value.JObj? && StringFields(setObj.value.members).Some? then
            Some(ProfileRecord(token.value.str, id.value.str, Set(StringFields(setObj.value.members).value)))
          else
            None
        else if addObj.Some? && addObj.value.JObj? && NumberFields(addObj.value.members).Some? then
          Some(ProfileRecord(token.value.str, id.value.str, Add(NumberFields(addObj.value.members).value)))
        else
          None
  }
}
