/** Properties of DictionaryToJsonObject: order, contents and lookups. */
module Filter {
  import opened Wrappers
  import opened Json
  import opened Mixpanel

  /** Filtering distributes over concatenation, so the kept entries keep their enumeration order. */
  lemma {:induction false} FilterAppend(a: Params, b: Params)
    ensures DictionaryToJsonObject(a + b) == DictionaryToJsonObject(a) + DictionaryToJsonObject(b)
  {
    if a == [] {
      assert a + b == b;
    } else {
      assert (a + b)[1..] == a[1..] + b;
      FilterAppend(a[1..], b);
    }
  }

  /** Every entry with a non-null, non-empty value appears in the filtered object as a string member. */
  lemma {:induction false} FilterKeeps(parameters: Params, p: (string, Option<string>))
    requires p in parameters
    requires KeepsEntry(p)
    ensures (p.0, JStr(p.1.value)) in DictionaryToJsonObject(parameters)
  {
    if parameters[0] != p {
      assert p in parameters[1..];
      FilterKeeps(parameters[1..], p);
    }
  }

  /** A single entry is kept as one string member exactly when its value is non-null and non-empty. */
  lemma FilterSingle(k: string, v: Option<string>)
    ensures DictionaryToJsonObject([(k, v)]) == if KeepsEntry((k, v)) then [(k, JStr(v.value))] else []
  {
    assert [(k, v)][1..] == [];
  }

  /** Filtering a dictionary keeps its keys distinct. */
  lemma {:induction false} FilterDistinct(parameters: Params)
    requires DistinctKeys(parameters)
    ensures DistinctKeys(DictionaryToJsonObject(parameters))
  {
    if parameters != [] {
      var rest := DictionaryToJsonObject(parameters[1..]);
      FilterDistinct(parameters[1..]);
      assert parameters[0].0 !in Keys(parameters[1..]);
      assert parameters[0].0 !in Keys(rest);
      if KeepsEntry(parameters[0]) {
        var r := [(parameters[0].0, JStr(parameters[0].1.value))] + rest;
        forall i, j | 0 <= i < j < |r|
          ensures r[i].0 != r[j].0
        {
          if i == 0 {
            assert r[j] == rest[j - 1];
            assert Keys(rest)[j - 1] == rest[j - 1].0;
          }
        }
      }
    }
  }

  /**
   Looking a key up in the filtered object finds the dictionary's value for it
   when that value is non-null and non-empty, and finds nothing otherwise.
   */
  lemma FilterLookup(parameters: Params, k: string)
    requires DistinctKeys(parameters)
    ensures var found := Lookup(parameters, k);
            Lookup(DictionaryToJsonObject(parameters), k)
            == if found.Some? && !IsNullOrEmpty(found.value) then Some(JStr(found.value.value)) else None
  {
    var r := DictionaryToJsonObject(parameters);
    FilterDistinct(parameters);
    var x := Lookup(r, k);
    if x.Some? {
      assert (k, x.value) in r;
      LookupDistinct(parameters, k, Some(x.value.str));
    }
  }
}
