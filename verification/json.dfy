/**
 This module models the part of Windows.Data.Json that the tracking client uses:
 string values, number values and objects. An object is an ordered sequence of
 members, so that key order and "exactly these keys" can be stated; adding a
 member (JsonObject.Add) appends it.
 */
module Json {
  import opened Wrappers

  datatype Json =
    | JStr(str: string)
    | JNum(num: int)
    | JObj(members: Members)

  /** The members of a JSON object, in insertion order. */
  type Members = seq<(string, Json)>

  /** The keys of a sequence of key/value entries, in order. */
  function Keys<V>(entries: seq<(string, V)>): (ks: seq<string>)
    ensures forall k :: k in ks <==> exists i :: 0 <= i < |entries| && entries[i].0 == k
  {
    var ks := seq(|entries|, i requires 0 <= i < |entries| => entries[i].0);
    assert forall i :: 0 <= i < |entries| ==> ks[i] == entries[i].0;
    ks
  }

  /** No key occurs twice; true of every C# Dictionary. */
  predicate DistinctKeys<V>(entries: seq<(string, V)>)
  {
    forall i, j :: 0 <= i < j < |entries| ==> entries[i].0 != entries[j].0
  }

  /** The value of the first entry with key `k`, if any. */
  function Lookup<V>(entries: seq<(string, V)>, k: string): (r: Option<V>)
    ensures r.None? <==> k !in Keys(entries)
    ensures r.Some? ==> (k, r.value) in entries
  {
    if entries == [] then None
    else if entries[0].0 == k then Some(entries[0].1)
    else
      assert Keys(entries) == [entries[0].0] + Keys(entries[1..]);
      Lookup(entries[1..], k)
  }

  lemma KeysAppend<V>(a: seq<(string, V)>, b: seq<(string, V)>)
    ensures Keys(a + b) == Keys(a) + Keys(b)
  {
  }

  /** Looking up in a concatenation looks in the left part first. */
  lemma {:induction false} LookupAppend<V>(a: seq<(string, V)>, b: seq<(string, V)>, k: string)
    ensures Lookup(a + b, k) == if k in Keys(a) then Lookup(a, k) else Lookup(b, k)
  {
    if a != [] {
      assert (a + b)[1..] == a[1..] + b;
      assert Keys(a) == [a[0].0] + Keys(a[1..]);
      LookupAppend(a[1..], b, k);
    } else {
      assert a + b == b;
    }
  }

  /** With distinct keys, the entry holding `k` is the one Lookup finds. */
  lemma {:induction false} LookupDistinct<V>(entries: seq<(string, V)>, k: string, v: V)
    requires DistinctKeys(entries)
    requires (k, v) in entries
    ensures Lookup(entries, k) == Some(v)
  {
    if entries[0] != (k, v) {
      assert entries[0].0 != k by {
        var j :| 0 <= j < |entries| && entries[j] == (k, v);
        assert j != 0;
      }
      assert (k, v) in entries[1..] by {
        var j :| 0 <= j < |entries| && entries[j] == (k, v);
        assert entries[1..][j - 1] == (k, v);
      }
      LookupDistinct(entries[1..], k, v);
    }
  }

  /** With distinct keys, looking up the key at position `i` finds the value at position `i`. */
  lemma LookupAt<V>(entries: seq<(string, V)>, i: int)
    requires DistinctKeys(entries)
    requires 0 <= i < |entries|
    ensures Lookup(entries, entries[i].0) == Some(entries[i].1)
  {
    assert entries[i] in entries;
    LookupDistinct(entries, entries[i].0, entries[i].1);
  }
}
