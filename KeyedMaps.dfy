/** The "record under its key unless the key is taken" loop over a slice,
    stated once for any element, key and value type: the registry pass keeps
    its collectors this way. */
module KeyedMaps {
  import opened Wrappers

  /** The map after recording, in slice order, each element's value under
      the element's key when the key is not yet present. */
  function AddNew<T, K, V>(m: map<K, V>, xs: seq<T>, vals: seq<V>, key: T -> K): map<K, V>
    requires |vals| == |xs|
  {
    if xs == [] then m
    else
      var before := AddNew(m, xs[..|xs| - 1], vals[..|xs| - 1], key);
      if key(xs[|xs| - 1]) in before then before else before[key(xs[|xs| - 1]) := vals[|xs| - 1]]
  }

  /** One element more is recorded when its key is new. */
  lemma AddNewSnoc<T, K, V>(m: map<K, V>, xs: seq<T>, vals: seq<V>, key: T -> K, x: T, v: V)
    requires |vals| == |xs|
    ensures AddNew(m, xs + [x], vals + [v], key)
         == var before := AddNew(m, xs, vals, key); if key(x) in before then before else before[key(x) := v]
  {
    assert (xs + [x])[..|xs|] == xs && (vals + [v])[..|xs|] == vals;
  }

  /** The keys after recording: the old ones and the elements' keys. */
  lemma {:induction false} AddNewKeys<T, K, V>(m: map<K, V>, xs: seq<T>, vals: seq<V>, key: T -> K, k: K)
    requires |vals| == |xs|
    ensures k in AddNew(m, xs, vals, key) <==> k in m || exists i :: 0 <= i < |xs| && key(xs[i]) == k
  {
    if xs != [] {
      var n := |xs| - 1;
      AddNewKeys(m, xs[..n], vals[..n], key, k);
      if exists i :: 0 <= i < n && key(xs[..n][i]) == k {
        var i :| 0 <= i < n && key(xs[..n][i]) == k;
        assert key(xs[i]) == k;
      }
      if exists i :: 0 <= i < |xs| && key(xs[i]) == k {
        var i :| 0 <= i < |xs| && key(xs[i]) == k;
        if i < n {
          assert key(xs[..n][i]) == k;
        }
      }
    }
  }

  /** Recording overwrites nothing. */
  lemma {:induction false} AddNewKeeps<T, K, V>(m: map<K, V>, xs: seq<T>, vals: seq<V>, key: T -> K, k: K)
    requires |vals| == |xs| && k in m
    ensures k in AddNew(m, xs, vals, key) && AddNew(m, xs, vals, key)[k] == m[k]
  {
    if xs != [] {
      AddNewKeeps(m, xs[..|xs| - 1], vals[..|xs| - 1], key, k);
    }
  }

  /** Under a new key is the value of the first element with that key. */
  lemma {:induction false} AddNewFirst<T, K, V>(m: map<K, V>, xs: seq<T>, vals: seq<V>, key: T -> K, i: int)
    requires |vals| == |xs| && 0 <= i < |xs| && key(xs[i]) !in m
    requires forall j :: 0 <= j < i ==> key(xs[j]) != key(xs[i])
    ensures key(xs[i]) in AddNew(m, xs, vals, key) && AddNew(m, xs, vals, key)[key(xs[i])] == vals[i]
  {
    var n := |xs| - 1;
    if i < n {
      assert xs[..n][i] == xs[i] && vals[..n][i] == vals[i];
      assert forall j :: 0 <= j < i ==> key(xs[..n][j]) != key(xs[..n][i]);
      AddNewFirst(m, xs[..n], vals[..n], key, i);
    } else {
      AddNewKeys(m, xs[..n], vals[..n], key, key(xs[n]));
    }
  }

  /** The map after recording, in slice order, each element's value under
      its key when there is a value and the key is not yet present. */
  function AddPresent<T, K, V>(m: map<K, V>, xs: seq<T>, vals: seq<Option<V>>, key: T -> K): map<K, V>
    requires |vals| == |xs|
  {
    if xs == [] then m
    else
      var before := AddPresent(m, xs[..|xs| - 1], vals[..|xs| - 1], key);
      var k, v := key(xs[|xs| - 1]), vals[|xs| - 1];
      if k in before || v.None? then before else before[k := v.value]
  }

  /** One element more is recorded when it has a value and its key is new. */
  lemma AddPresentSnoc<T, K, V>(m: map<K, V>, xs: seq<T>, vals: seq<Option<V>>, key: T -> K, x: T, v: Option<V>)
    requires |vals| == |xs|
    ensures AddPresent(m, xs + [x], vals + [v], key)
         == var before := AddPresent(m, xs, vals, key); if key(x) in before || v.None? then before else before[key(x) := v.value]
  {
    assert (xs + [x])[..|xs|] == xs && (vals + [v])[..|xs|] == vals;
  }

  /** The keys after recording: the old ones and the keys of the elements
      that have a value; each new key holds the value of such an element. */
  lemma {:induction false} AddPresentKeys<T, K, V>(m: map<K, V>, xs: seq<T>, vals: seq<Option<V>>, key: T -> K, k: K)
    requires |vals| == |xs|
    ensures k in AddPresent(m, xs, vals, key) <==> k in m || exists i :: 0 <= i < |xs| && key(xs[i]) == k && vals[i].Some?
    ensures k in AddPresent(m, xs, vals, key) && k !in m ==>
      exists i :: 0 <= i < |xs| && key(xs[i]) == k && vals[i] == Some(AddPresent(m, xs, vals, key)[k])
  {
    if xs != [] {
      var n := |xs| - 1;
      AddPresentKeys(m, xs[..n], vals[..n], key, k);
      var before := AddPresent(m, xs[..n], vals[..n], key);
      if k in before && k !in m {
        var i :| 0 <= i < n && key(xs[..n][i]) == k && vals[..n][i] == Some(before[k]);
        assert key(xs[i]) == k && vals[i] == Some(before[k]);
      }
      if exists i :: 0 <= i < n && key(xs[..n][i]) == k && vals[..n][i].Some? {
        var i :| 0 <= i < n && key(xs[..n][i]) == k && vals[..n][i].Some?;
        assert key(xs[i]) == k && vals[i].Some?;
      }
      if exists i :: 0 <= i < |xs| && key(xs[i]) == k && vals[i].Some? {
        var i :| 0 <= i < |xs| && key(xs[i]) == k && vals[i].Some?;
        if i < n {
          assert key(xs[..n][i]) == k && vals[..n][i].Some?;
        }
      }
    }
  }

  /** Recording only values overwrites nothing. */
  lemma {:induction false} AddPresentKeeps<T, K, V>(m: map<K, V>, xs: seq<T>, vals: seq<Option<V>>, key: T -> K, k: K)
    requires |vals| == |xs| && k in m
    ensures k in AddPresent(m, xs, vals, key) && AddPresent(m, xs, vals, key)[k] == m[k]
  {
    if xs != [] {
      AddPresentKeeps(m, xs[..|xs| - 1], vals[..|xs| - 1], key, k);
    }
  }
}
