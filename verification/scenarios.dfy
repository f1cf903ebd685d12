/** Concrete payloads for fixed inputs. */
module Scenarios {
  import opened Wrappers
  import opened Json
  import opened Mixpanel

  /** An empty property is dropped; the token and distinct id follow the kept ones. */
  lemma TrackEventWithEmptyProperty()
    ensures TrackEventPayload(Client("T1"), "E", "U1", [("a", Some("1")), ("b", Some(""))])
            == JObj([("event", JStr("E")),
                     ("properties", JObj([("a", JStr("1")), ("token", JStr("T1")), ("distinct_id", JStr("U1"))]))])
  {
    var ps: Params := [("a", Some("1")), ("b", Some(""))];
    assert ps[1..][1..] == [];
    assert DictionaryToJsonObject(ps) == [("a", JStr("1"))];
    assert [("a", JStr("1"))] + [("token", JStr("T1")), ("distinct_id", JStr("U1"))]
        == [("a", JStr("1")), ("token", JStr("T1")), ("distinct_id", JStr("U1"))];
  }

  /** A null value is dropped from `$set` like an empty one. */
  lemma UpdateProfileWithNullValue()
    ensures UpdateProfilePayload(Client("T1"), "U1", [("name", None), ("city", Some("Lisbon"))])
            == JObj([("$token", JStr("T1")), ("$distinct_id", JStr("U1")),
                     ("$set", JObj([("city", JStr("Lisbon"))]))])
  {
    var ps: Params := [("name", None), ("city", Some("Lisbon"))];
    assert ps[1..][1..] == [];
    assert DictionaryToJsonObject(ps) == [("city", JStr("Lisbon"))];
  }

  /**
   The client does not stop a caller property named `$token` from reaching an
   event's properties: it is copied like any other non-empty property.
   */
  lemma ProfileKeyNameInEvent()
    ensures TokenProfileKey in Keys(TrackEventPayload(Client("T"), "E", "U", [("$token", Some("x"))]).members[1].1.members)
  {
    var ps: Params := [("$token", Some("x"))];
    assert ps[1..] == [];
    assert DictionaryToJsonObject(ps) == [("$token", JStr("x"))];
    var props := TrackEventPayload(Client("T"), "E", "U", ps).members[1].1.members;
    assert props[0] == ("$token", JStr("x"));
  }
}
