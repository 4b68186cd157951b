/** Dictionaries as the reader and the merge use them: looked up, assigned to, and sorted by key. */
module KeyedFields {
  import opened Options
  import opened Bencode
  import opened Decoding

  function Lookup<V>(fields: seq<Field<V>>, key: Bytes): Option<V> {
    if fields == [] then None
    else if fields[0].key == key then Some(fields[0].value)
    else Lookup(fields[1..], key)
  }

  /** `d[key] = value`: a new key goes last, an old one keeps its place. */
  function Put<V>(fields: seq<Field<V>>, key: Bytes, value: V): seq<Field<V>> {
    if fields == [] then [Field(key, value)]
    else if fields[0].key == key then [Field(key, value)] + fields[1..]
    else [fields[0]] + Put(fields[1..], key, value)
  }

  function InsertByKey<V>(fields: seq<Field<V>>, f: Field<V>): seq<Field<V>> {
    if fields == [] || Below(f.key, fields[0].key) then [f] + fields
    else [fields[0]] + InsertByKey(fields[1..], f)
  }

  /** `sorted(d.items())`, whose keys are distinct. */
  function SortByKey<V>(fields: seq<Field<V>>): seq<Field<V>> {
    if fields == [] then [] else InsertByKey(SortByKey(fields[1..]), fields[0])
  }

  ghost predicate HasKey<V>(fields: seq<Field<V>>, key: Bytes) {
    exists i :: 0 <= i < |fields| && fields[i].key == key
  }

  ghost predicate DistinctKeys<V>(fields: seq<Field<V>>) {
    forall i, j :: 0 <= i < j < |fields| ==> fields[i].key != fields[j].key
  }

  lemma {:induction false} LookupFinds<V>(fields: seq<Field<V>>, key: Bytes)
    ensures Lookup(fields, key).Some? <==> HasKey(fields, key)
    ensures Lookup(fields, key).Some? ==> Field(key, Lookup(fields, key).value) in fields
  {
    if fields != [] && fields[0].key != key {
      LookupFinds(fields[1..], key);
      if HasKey(fields, key) {
        var i :| 0 <= i < |fields| && fields[i].key == key;
        assert fields[1..][i - 1].key == key;
      }
    }
  }

  lemma {:induction false} LookupAt<V>(fields: seq<Field<V>>, i: nat)
    requires DistinctKeys(fields) && i < |fields|
    ensures Lookup(fields, fields[i].key) == Some(fields[i].value)
  {
    if i > 0 { LookupAt(fields[1..], i - 1); }
  }

  lemma {:induction false} LookupAppend<V>(fields: seq<Field<V>>, f: Field<V>)
    requires DistinctKeys(fields + [f])
    ensures forall q :: Lookup(fields + [f], q) == if q == f.key then Some(f.value) else Lookup(fields, q)
  {
    if fields == [] {
      assert [f][1..] == [];
    } else {
      assert (fields + [f])[1..] == fields[1..] + [f];
      assert (fields + [f])[0] == fields[0] && (fields + [f])[|fields|] == f;
      LookupAppend(fields[1..], f);
    }
  }

  lemma {:induction false} PutAssigns<V>(fields: seq<Field<V>>, key: Bytes, value: V)
    requires DistinctKeys(fields)
    ensures DistinctKeys(Put(fields, key, value))
    ensures forall q :: Lookup(Put(fields, key, value), q) == if q == key then Some(value) else Lookup(fields, q)
    ensures forall i | 0 <= i < |Put(fields, key, value)| ::
      Put(fields, key, value)[i] == Field(key, value) || Put(fields, key, value)[i] in fields
  {
    var after := Put(fields, key, value);
    if fields != [] && fields[0].key != key {
      PutAssigns(fields[1..], key, value);
      assert after[1..] == Put(fields[1..], key, value);
      forall i | 0 < i < |after| ensures after[i].key != after[0].key {
        assert after[i] == after[1..][i - 1];
        if after[i] != Field(key, value) {
          var j :| 0 <= j < |fields[1..]| && fields[1..][j] == after[i];
          assert fields[j + 1] == after[i];
        }
      }
      assert forall i, j | 0 < i < j < |after| :: after[i] == after[1..][i - 1] && after[j] == after[1..][j - 1];
    } else if fields != [] {
      assert after[1..] == fields[1..];
    }
  }

  lemma IncreasingTail<V>(fields: seq<Field<V>>)
    requires fields != []
    ensures Increasing(fields) <==>
      Increasing(fields[1..]) && (|fields| > 1 ==> Below(fields[0].key, fields[1].key))
  {
    assert forall i | 0 < i < |fields| - 1 :: fields[1..][i] == fields[i + 1] && fields[1..][i - 1] == fields[i];
    if Increasing(fields[1..]) && (|fields| > 1 ==> Below(fields[0].key, fields[1].key)) {
      forall i | 0 < i < |fields| ensures Below(fields[i - 1].key, fields[i].key) {
        if i > 1 { assert Below(fields[1..][i - 2].key, fields[1..][i - 1].key); }
      }
    }
  }

  lemma {:induction false} IncreasingFromFirst<V>(fields: seq<Field<V>>, i: nat)
    requires Increasing(fields) && 0 < i < |fields|
    ensures Below(fields[0].key, fields[i].key)
  {
    if i > 1 {
      IncreasingFromFirst(fields, i - 1);
      BelowIsTransitive(fields[0].key, fields[i - 1].key, fields[i].key);
    }
  }

  lemma {:induction false} IncreasingKeysDiffer<V>(fields: seq<Field<V>>)
    requires Increasing(fields)
    ensures DistinctKeys(fields)
  {
    if fields != [] {
      IncreasingTail(fields);
      IncreasingKeysDiffer(fields[1..]);
      forall i, j | 0 <= i < j < |fields| ensures fields[i].key != fields[j].key {
        if i == 0 {
          IncreasingFromFirst(fields, j);
          BelowIsTotal(fields[0].key, fields[j].key);
        } else {
          assert fields[1..][i - 1].key != fields[1..][j - 1].key;
        }
      }
    }
  }

  lemma {:induction false} InsertKeepsOrder<V>(fields: seq<Field<V>>, f: Field<V>)
    requires Increasing(fields) && !HasKey(fields, f.key)
    ensures Increasing(InsertByKey(fields, f))
    ensures forall q :: Lookup(InsertByKey(fields, f), q) == if q == f.key then Some(f.value) else Lookup(fields, q)
    ensures multiset(InsertByKey(fields, f)) == multiset(fields) + multiset{f}
  {
    var after := InsertByKey(fields, f);
    if fields == [] || Below(f.key, fields[0].key) {
      assert after[1..] == fields;
      IncreasingTail(after);
      if fields != [] { LookupFinds(fields, f.key); }
    } else {
      assert fields == [fields[0]] + fields[1..];
      assert after[1..] == InsertByKey(fields[1..], f);
      assert !HasKey(fields[1..], f.key) by {
        assert forall i | 0 <= i < |fields| - 1 :: fields[1..][i] == fields[i + 1];
      }
      IncreasingTail(fields);
      InsertKeepsOrder(fields[1..], f);
      BelowIsTotal(f.key, fields[0].key);
      assert fields[0].key != f.key;
      IncreasingTail(after);
    }
  }

  lemma SameMembers<V>(s: seq<Field<V>>, t: seq<Field<V>>)
    requires multiset(s) == multiset(t)
    ensures forall f :: f in s <==> f in t
    ensures forall key :: HasKey(s, key) <==> HasKey(t, key)
  {
    assert forall f :: f in s <==> f in multiset(s);
    assert forall f :: f in t <==> f in multiset(t);
    forall key ensures HasKey(s, key) <==> HasKey(t, key) {
      if HasKey(s, key) {
        var i :| 0 <= i < |s| && s[i].key == key;
        assert s[i] in t;
      }
      if HasKey(t, key) {
        var i :| 0 <= i < |t| && t[i].key == key;
        assert t[i] in s;
      }
    }
  }

  /** Sorting puts the keys in order and changes nothing else. */
  lemma {:induction false} SortingOnlyOrders<V>(fields: seq<Field<V>>)
    requires DistinctKeys(fields)
    ensures Increasing(SortByKey(fields)) && multiset(SortByKey(fields)) == multiset(fields)
    ensures forall q :: Lookup(SortByKey(fields), q) == Lookup(fields, q)
  {
    if fields != [] {
      var rest := fields[1..];
      SortingOnlyOrders(rest);
      SameMembers(SortByKey(rest), rest);
      assert !HasKey(rest, fields[0].key);
      InsertKeepsOrder(SortByKey(rest), fields[0]);
      assert fields == [fields[0]] + rest;
    }
  }

  // ---- Fields whose values are already encoded ----

  function Raw(fields: seq<Field<Value>>): seq<Field<Bytes>> {
    seq(|fields|, i requires 0 <= i < |fields| => Field(fields[i].key, Encode(fields[i].value)))
  }

  lemma {:induction false} PutRaw(fields: seq<Field<Value>>, key: Bytes, value: Value)
    ensures Put(Raw(fields), key, Encode(value)) == Raw(Put(fields, key, value))
  {
    hide Encode;
    if fields != [] {
      assert Raw(fields)[1..] == Raw(fields[1..]);
      PutRaw(fields[1..], key, value);
    }
  }

  lemma {:induction false} InsertRaw(fields: seq<Field<Value>>, f: Field<Value>)
    ensures InsertByKey(Raw(fields), Field(f.key, Encode(f.value))) == Raw(InsertByKey(fields, f))
  {
    hide Encode;
    if fields != [] {
      assert Raw(fields)[1..] == Raw(fields[1..]);
      InsertRaw(fields[1..], f);
    }
  }

  lemma {:induction false} SortRaw(fields: seq<Field<Value>>)
    ensures SortByKey(Raw(fields)) == Raw(SortByKey(fields))
  {
    hide Encode;
    if fields != [] {
      assert Raw(fields)[1..] == Raw(fields[1..]);
      SortRaw(fields[1..]);
      InsertRaw(SortByKey(fields[1..]), fields[0]);
    }
  }

  lemma AppendRaw(fields: seq<Field<Value>>, f: Field<Value>)
    ensures Raw(fields + [f]) == Raw(fields) + [Field(f.key, Encode(f.value))]
  {
    hide Encode;
  }
}
