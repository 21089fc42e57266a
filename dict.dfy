/** A Python dict as the helper uses one: entries plus the order in which their
    keys were first inserted. Iteration follows that order; assigning to a key
    that is already present keeps its place; `del` removes it from the order. */
module OrderedDict {
  import opened Json

  datatype Dict = Dict(keys: seq<string>, entries: map<string, Json>)

  predicate Distinct(s: seq<string>) {
    forall i, j :: 0 <= i < j < |s| ==> s[i] != s[j]
  }

  /** Dropping the first key of a duplicate-free order leaves one without it. */
  lemma DistinctTail(s: seq<string>)
    requires Distinct(s) && s != []
    ensures Distinct(s[1..]) && s[0] !in s[1..]
  {
    forall i, j | 0 <= i < j < |s[1..]| ensures s[1..][i] != s[1..][j] {
      assert s[1..][i] == s[i + 1] && s[1..][j] == s[j + 1];
    }
    forall i | 0 <= i < |s[1..]| ensures s[1..][i] != s[0] {
      assert s[1..][i] == s[i + 1];
    }
  }

  /** Every key occurs once in the order, and the order lists exactly the entries. */
  predicate Valid(d: Dict) {
    && Distinct(d.keys)
    && (forall k :: k in d.entries ==> k in d.keys)
    && (forall k :: k in d.keys ==> k in d.entries)
  }

  /** `{}` */
  function Empty(): (d: Dict)
    ensures Valid(d) && d.keys == [] && d.entries == map[]
  {
    Dict([], map[])
  }

  /** `d[k] = v`: the entry is set; a new key goes last, an existing one keeps its place. */
  function Put(d: Dict, k: string, v: Json): (r: Dict)
    requires Valid(d)
    ensures Valid(r)
    ensures r.entries == d.entries[k := v]
    ensures k in d.entries ==> r.keys == d.keys
    ensures k !in d.entries ==> r.keys == d.keys + [k]
  {
    if k in d.entries then Dict(d.keys, d.entries[k := v])
    else Dict(d.keys + [k], d.entries[k := v])
  }

  /** `if not k in d: d[k] = v`: an absent key is added last with `v`; every
      entry already there keeps its value and its place. */
  function SetDefault(d: Dict, k: string, v: Json): (r: Dict)
    requires Valid(d)
    ensures Valid(r) && k in r.entries && d.keys <= r.keys
    ensures forall x :: x in r.entries <==> x in d.entries || x == k
    ensures forall x :: x in d.entries ==> r.entries[x] == d.entries[x]
    ensures k !in d.entries ==> r.entries[k] == v
  {
    if k in d.entries then d else Put(d, k, v)
  }

  /** `s` with every occurrence of `k` dropped, the rest in their order. */
  function Drop(s: seq<string>, k: string): (r: seq<string>)
    ensures forall x :: x in r <==> x in s && x != k
    ensures |r| <= |s|
  {
    if s == [] then []
    else if s[0] == k then Drop(s[1..], k)
    else [s[0]] + Drop(s[1..], k)
  }

  lemma {:induction false} DropDistinct(s: seq<string>, k: string)
    requires Distinct(s)
    ensures Distinct(Drop(s, k))
  {
    if s != [] {
      DistinctTail(s);
      DropDistinct(s[1..], k);
      if s[0] != k {
        var t := Drop(s[1..], k);
        assert s[0] !in t;
        forall i, j | 0 <= i < j < |[s[0]] + t| ensures ([s[0]] + t)[i] != ([s[0]] + t)[j] {
          if i == 0 {
            assert ([s[0]] + t)[j] == t[j - 1];
          } else {
            assert ([s[0]] + t)[i] == t[i - 1] && ([s[0]] + t)[j] == t[j - 1];
          }
        }
      }
    }
  }

  /** `del d[k]`. */
  function Remove(d: Dict, k: string): (r: Dict)
    requires Valid(d)
    ensures Valid(r)
    ensures r.entries == d.entries - {k}
    ensures r.keys == Drop(d.keys, k)
  {
    DropDistinct(d.keys, k);
    Dict(Drop(d.keys, k), d.entries - {k})
  }

  /** Storing the value a key already holds changes nothing, its position included. */
  lemma PutUnchanged(d: Dict, k: string, v: Json)
    requires Valid(d) && k in d.entries && d.entries[k] == v
    ensures Put(d, k, v) == d
  {
    assert d.entries[k := v] == d.entries;
  }

  /** Deleting a key that is absent changes nothing. */
  lemma {:induction false} RemoveAbsent(d: Dict, k: string)
    requires Valid(d) && k !in d.entries
    ensures Remove(d, k) == d
  {
    DropAbsent(d.keys, k);
    assert d.entries - {k} == d.entries;
  }

  lemma {:induction false} DropAbsent(s: seq<string>, k: string)
    requires k !in s
    ensures Drop(s, k) == s
  {
    if s != [] {
      assert k !in s[1..];
      DropAbsent(s[1..], k);
      assert [s[0]] + s[1..] == s;
    }
  }

  /** The keys of a list of assignments, in order. */
  function KeysOf(pairs: seq<(string, Json)>): (r: seq<string>)
    ensures |r| == |pairs|
    ensures forall i :: 0 <= i < |pairs| ==> r[i] == pairs[i].0
  {
    if pairs == [] then [] else [pairs[0].0] + KeysOf(pairs[1..])
  }

  /** The assignments `d[k] = v` of `pairs`, one after the other: the old keys keep
      their places and the result has exactly the old keys and the assigned ones. */
  function PutAll(d: Dict, pairs: seq<(string, Json)>): (r: Dict)
    requires Valid(d)
    ensures Valid(r)
    ensures d.keys <= r.keys
    ensures forall k :: k in r.entries <==> k in d.entries || k in KeysOf(pairs)
    decreases |pairs|
  {
    if pairs == [] then d
    else
      assert KeysOf(pairs) == [pairs[0].0] + KeysOf(pairs[1..]);
      PutAll(Put(d, pairs[0].0, pairs[0].1), pairs[1..])
  }

  /** An entry no pair assigns keeps its value. */
  lemma {:induction false} PutAllOthers(d: Dict, pairs: seq<(string, Json)>, k: string)
    requires Valid(d) && k in d.entries && k !in KeysOf(pairs)
    ensures PutAll(d, pairs).entries[k] == d.entries[k]
    decreases |pairs|
  {
    if pairs != [] {
      assert KeysOf(pairs) == [pairs[0].0] + KeysOf(pairs[1..]);
      PutAllOthers(Put(d, pairs[0].0, pairs[0].1), pairs[1..], k);
    }
  }

  /** `Distinct` stated one element at a time, as an induction over the list needs it. */
  predicate NoRepeats(s: seq<string>) {
    s == [] || (s[0] !in s[1..] && NoRepeats(s[1..]))
  }

  lemma {:induction false} DistinctNoRepeats(s: seq<string>)
    requires Distinct(s)
    ensures NoRepeats(s)
    decreases |s|
  {
    if s != [] {
      DistinctTail(s);
      DistinctNoRepeats(s[1..]);
    }
  }

  /** Keys that are all new and assigned once each are appended, in the order of
      the assignments. */
  lemma {:induction false} PutAllFresh(d: Dict, pairs: seq<(string, Json)>)
    requires Valid(d) && NoRepeats(KeysOf(pairs))
    requires forall k :: k in KeysOf(pairs) ==> k !in d.entries
    ensures PutAll(d, pairs).keys == d.keys + KeysOf(pairs)
    decreases |pairs|
  {
    if pairs != [] {
      var k0, rest := pairs[0].0, pairs[1..];
      var d1 := Put(d, k0, pairs[0].1);
      assert NoRepeats(KeysOf(rest)) && forall k :: k in KeysOf(rest) ==> k !in d1.entries by {
        assert KeysOf(pairs) == [k0] + KeysOf(rest);
        assert KeysOf(pairs)[1..] == KeysOf(rest);
      }
      PutAllFresh(d1, rest);
      assert KeysOf(pairs) == [k0] + KeysOf(rest);
      AppendSingleton(d.keys, k0, KeysOf(rest));
    }
  }

  lemma AppendSingleton(a: seq<string>, x: string, b: seq<string>)
    ensures (a + [x]) + b == a + ([x] + b)
  {
  }

  /** With distinct keys, every assigned key ends up with the value assigned to it. */
  lemma {:induction false} PutAllAssigned(d: Dict, pairs: seq<(string, Json)>, i: nat)
    requires Valid(d) && Distinct(KeysOf(pairs)) && i < |pairs|
    ensures PutAll(d, pairs).entries[pairs[i].0] == pairs[i].1
    decreases |pairs|
  {
    var rest := pairs[1..];
    var keys := KeysOf(pairs);
    assert keys == [pairs[0].0] + KeysOf(rest);
    var d1 := Put(d, pairs[0].0, pairs[0].1);
    if i == 0 {
      assert pairs[0].0 !in KeysOf(rest) by {
        forall j | 0 <= j < |rest| ensures KeysOf(rest)[j] != pairs[0].0 {
          assert keys[j + 1] == KeysOf(rest)[j];
        }
      }
      PutAllOthers(d1, rest, pairs[0].0);
    } else {
      assert Distinct(KeysOf(rest)) by {
        forall a, b | 0 <= a < b < |rest| ensures KeysOf(rest)[a] != KeysOf(rest)[b] {
          assert keys[a + 1] == KeysOf(rest)[a] && keys[b + 1] == KeysOf(rest)[b];
        }
      }
      PutAllAssigned(d1, rest, i - 1);
    }
  }
}
