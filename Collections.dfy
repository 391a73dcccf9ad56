/** Two Go loop shapes over slices, stated once for any element type: a
    nested "for each key, append the elements it matches" filter, and a
    "for each element, m[key(x)] = val(x)" map fill. */
module Collections {
  import opened Wrappers

  /** The elements `c` matches, in slice order. */
  function Select<C, T>(xs: seq<T>, c: C, matches: (C, T) -> bool): (r: seq<T>)
    ensures forall x :: x in r ==> x in xs && matches(c, x)
  {
    if xs == [] then []
    else Select(xs[..|xs| - 1], c, matches) + (if matches(c, xs[|xs| - 1]) then [xs[|xs| - 1]] else [])
  }

  /** For each key in turn, the elements it matches. */
  function SelectAll<C, T>(xs: seq<T>, cs: seq<C>, matches: (C, T) -> bool): seq<T>
  {
    if cs == [] then []
    else SelectAll(xs, cs[..|cs| - 1], matches) + Select(xs, cs[|cs| - 1], matches)
  }

  /** How many keys match an element. */
  function MatchCount<C, T>(cs: seq<C>, x: T, matches: (C, T) -> bool): nat
  {
    if cs == [] then 0
    else MatchCount(cs[..|cs| - 1], x, matches) + (if matches(cs[|cs| - 1], x) then 1 else 0)
  }

  lemma {:induction false} SelectMultiplicity<C, T>(xs: seq<T>, c: C, matches: (C, T) -> bool, x: T)
    ensures multiset(Select(xs, c, matches))[x] == if matches(c, x) then multiset(xs)[x] else 0
  {
    if xs != [] {
      SelectMultiplicity(xs[..|xs| - 1], c, matches, x);
      assert xs == xs[..|xs| - 1] + [xs[|xs| - 1]];
    }
  }

  /** Arithmetic step for the multiplicity counts of SelectAllMultiplicity,
      which AtlasClient.ListedProcessesFilter rests on. */
  lemma MulSucc(a: nat, p: nat)
    ensures a * p + a == a * (p + 1)
  {
  }

  /** Each element occurs once per matching key and per occurrence in the slice. */
  lemma {:induction false} SelectAllMultiplicity<C, T>(xs: seq<T>, cs: seq<C>, matches: (C, T) -> bool, x: T)
    ensures multiset(SelectAll(xs, cs, matches))[x] == multiset(xs)[x] * MatchCount(cs, x, matches)
  {
    if cs != [] {
      var init, last := cs[..|cs| - 1], cs[|cs| - 1];
      SelectAllMultiplicity(xs, init, matches, x);
      SelectMultiplicity(xs, last, matches, x);
      SelectAllStep(xs, cs, matches, x);
      CountStep(multiset(SelectAll(xs, cs, matches))[x], multiset(SelectAll(xs, init, matches))[x],
                multiset(Select(xs, last, matches))[x], multiset(xs)[x],
                MatchCount(init, x, matches), MatchCount(cs, x, matches), matches(last, x));
    }
  }

  /** The arithmetic of one step of SelectAllMultiplicity. */
  lemma CountStep(total: nat, before: nat, added: nat, m: nat, p: nat, q: nat, b: bool)
    requires total == before + added && before == m * p
    requires added == (if b then m else 0) && q == p + (if b then 1 else 0)
    ensures total == m * q
  {
    MulStep(m, p, b);
  }

  /** One key more adds its selection and, when it matches, one to the count. */
  lemma SelectAllStep<C, T>(xs: seq<T>, cs: seq<C>, matches: (C, T) -> bool, x: T)
    requires cs != []
    ensures multiset(SelectAll(xs, cs, matches))[x]
         == multiset(SelectAll(xs, cs[..|cs| - 1], matches))[x] + multiset(Select(xs, cs[|cs| - 1], matches))[x]
    ensures MatchCount(cs, x, matches)
         == MatchCount(cs[..|cs| - 1], x, matches) + (if matches(cs[|cs| - 1], x) then 1 else 0)
  {
  }

  /** Arithmetic step for the multiplicity counts of SelectAllMultiplicity. */
  lemma MulStep(a: nat, p: nat, b: bool)
    ensures a * p + (if b then a else 0) == a * (p + if b then 1 else 0)
  {
    if b {
      MulSucc(a, p);
    }
  }

  lemma {:induction false} MatchCountPositive<C, T>(cs: seq<C>, x: T, matches: (C, T) -> bool)
    ensures MatchCount(cs, x, matches) > 0 <==> exists c :: c in cs && matches(c, x)
  {
    if cs != [] {
      var init, last := cs[..|cs| - 1], cs[|cs| - 1];
      MatchCountPositive(init, x, matches);
      assert cs == init + [last];
      if matches(last, x) {
        assert last in cs;
      } else {
        assert forall c :: c in cs <==> c in init || c == last;
      }
    }
  }

  /** An element is selected exactly when it is in the slice and some key matches it. */
  lemma SelectAllSoundAndComplete<C, T>(xs: seq<T>, cs: seq<C>, matches: (C, T) -> bool, x: T)
    ensures x in SelectAll(xs, cs, matches) <==> x in xs && exists c :: c in cs && matches(c, x)
  {
    SelectAllMultiplicity(xs, cs, matches, x);
    MatchCountPositive(cs, x, matches);
    MulPositive(multiset(xs)[x], MatchCount(cs, x, matches));
  }

  /** A multiplicity product is positive exactly when both factors are: the
      membership step of the multiplicity counts behind
      AtlasClient.ListedProcessesFilter. */
  lemma MulPositive(a: nat, p: nat)
    ensures a * p > 0 <==> a > 0 && p > 0
  {
    if a > 0 && p > 0 {
      assert a * p >= p;
    }
  }

  /** The selections of the first k keys come first. */
  lemma SelectAllKeyMajor<C, T>(xs: seq<T>, cs: seq<C>, matches: (C, T) -> bool, k: nat)
    requires k <= |cs|
    ensures SelectAll(xs, cs[..k], matches) <= SelectAll(xs, cs, matches)
    decreases |cs| - k
  {
    if k < |cs| {
      SelectAllKeyMajor(xs, cs, matches, k + 1);
      assert cs[..k + 1][..k] == cs[..k];
    } else {
      assert cs[..k] == cs;
    }
  }

  /** The map filled by `m[key(x)] = val(x)` for each element in order. */
  function FillMap<A, K, V>(xs: seq<A>, key: A -> K, val: A -> V): map<K, V>
  {
    if xs == [] then map[]
    else FillMap(xs[..|xs| - 1], key, val)[key(xs[|xs| - 1]) := val(xs[|xs| - 1])]
  }

  /** Every element's key is in the filled map. */
  lemma {:induction false} FillMapHasKeys<A, K, V>(xs: seq<A>, key: A -> K, val: A -> V)
    ensures forall i :: 0 <= i < |xs| ==> key(xs[i]) in FillMap(xs, key, val)
  {
    if xs != [] {
      var init, n := xs[..|xs| - 1], |xs| - 1;
      FillMapHasKeys(init, key, val);
      forall i | 0 <= i < n ensures key(xs[i]) in FillMap(xs, key, val) {
        assert xs[i] == init[i];
      }
    }
  }

  /** Every key of the filled map is some element's key. */
  lemma {:induction false} FillMapKeysFrom<A, K, V>(xs: seq<A>, key: A -> K, val: A -> V, k: K)
    requires k in FillMap(xs, key, val)
    ensures exists i :: 0 <= i < |xs| && key(xs[i]) == k
  {
    var init, n := xs[..|xs| - 1], |xs| - 1;
    if k != key(xs[n]) {
      assert k in FillMap(init, key, val);
      FillMapKeysFrom(init, key, val, k);
      var i :| 0 <= i < |init| && key(init[i]) == k;
      assert xs[i] == init[i];
    }
  }

  /** A key holds the value of the last element with that key. */
  lemma {:induction false} FillMapLast<A, K, V>(xs: seq<A>, key: A -> K, val: A -> V, i: int)
    requires 0 <= i < |xs| && forall j :: i < j < |xs| ==> key(xs[j]) != key(xs[i])
    ensures key(xs[i]) in FillMap(xs, key, val) && FillMap(xs, key, val)[key(xs[i])] == val(xs[i])
  {
    var init, n := xs[..|xs| - 1], |xs| - 1;
    if i < n {
      assert xs[i] == init[i];
      assert key(xs[n]) != key(xs[i]);
      forall j | i < j < |init| ensures key(init[j]) != key(init[i]) {
        assert init[j] == xs[j];
      }
      FillMapLast(init, key, val, i);
    }
  }

  /** The keys are exactly the elements' keys, and a key holds the value of
      the last element with that key. */
  lemma FillMapEntries<A, K, V>(xs: seq<A>, key: A -> K, val: A -> V)
    ensures forall i :: 0 <= i < |xs| ==> key(xs[i]) in FillMap(xs, key, val)
    ensures forall k :: k in FillMap(xs, key, val) ==> exists i :: 0 <= i < |xs| && key(xs[i]) == k
    ensures forall i :: 0 <= i < |xs| && (forall j :: i < j < |xs| ==> key(xs[j]) != key(xs[i])) ==>
      FillMap(xs, key, val)[key(xs[i])] == val(xs[i])
  {
    FillMapHasKeys(xs, key, val);
    forall k | k in FillMap(xs, key, val) ensures exists i :: 0 <= i < |xs| && key(xs[i]) == k {
      FillMapKeysFrom(xs, key, val, k);
    }
    forall i | 0 <= i < |xs| && (forall j :: i < j < |xs| ==> key(xs[j]) != key(xs[i]))
      ensures FillMap(xs, key, val)[key(xs[i])] == val(xs[i])
    {
      FillMapLast(xs, key, val, i);
    }
  }

  /** The last position at or after i with the same key as xs[i]. */
  lemma LastWithKey<A, K>(xs: seq<A>, key: A -> K, i: int) returns (last: int)
    requires 0 <= i < |xs|
    ensures i <= last < |xs| && key(xs[last]) == key(xs[i])
    ensures forall j :: last < j < |xs| ==> key(xs[j]) != key(xs[i])
    decreases |xs| - i
  {
    if exists j :: i < j < |xs| && key(xs[j]) == key(xs[i]) {
      var j :| i < j < |xs| && key(xs[j]) == key(xs[i]);
      last := LastWithKey(xs, key, j);
    } else {
      last := i;
    }
  }

  /** Every entry of the filled map is the value of an element with its key. */
  lemma FillMapValue<A, K, V>(xs: seq<A>, key: A -> K, val: A -> V, k: K) returns (i: int)
    requires k in FillMap(xs, key, val)
    ensures 0 <= i < |xs| && key(xs[i]) == k && FillMap(xs, key, val)[k] == val(xs[i])
  {
    FillMapEntries(xs, key, val);
    var j :| 0 <= j < |xs| && key(xs[j]) == k;
    i := LastWithKey(xs, key, j);
  }

  /** The map is empty exactly when the slice is. */
  lemma FillMapEmpty<A, K, V>(xs: seq<A>, key: A -> K, val: A -> V)
    ensures |FillMap(xs, key, val)| == 0 <==> |xs| == 0
  {
    if xs != [] {
      assert key(xs[|xs| - 1]) in FillMap(xs, key, val);
    }
  }

  /** The values f yields on the elements, in order, skipping the elements
      it maps to None: a loop that appends only its successful conversions. */
  function FilterMap<A, B>(xs: seq<A>, f: A -> Option<B>): seq<B>
  {
    if xs == [] then []
    else FilterMap(xs[..|xs| - 1], f) + (match f(xs[|xs| - 1]) case Some(y) => [y] case None => [])
  }

  /** How many elements f maps to None: the conversions that loop skips. */
  function CountNone<A, B>(xs: seq<A>, f: A -> Option<B>): nat
  {
    if xs == [] then 0
    else CountNone(xs[..|xs| - 1], f) + (if f(xs[|xs| - 1]).None? then 1 else 0)
  }

  /** A value is kept exactly when some element converts to it, and every
      element is either kept or counted as skipped. */
  lemma FilterMapMembers<A, B>(xs: seq<A>, f: A -> Option<B>)
    ensures forall y :: y in FilterMap(xs, f) <==> exists i :: 0 <= i < |xs| && f(xs[i]) == Some(y)
    ensures |FilterMap(xs, f)| + CountNone(xs, f) == |xs|
  {
    forall y ensures y in FilterMap(xs, f) <==> exists i :: 0 <= i < |xs| && f(xs[i]) == Some(y) {
      FilterMapHas(xs, f, y);
    }
    FilterMapLength(xs, f);
  }

  /** A value is converted exactly when some element converts to it. */
  lemma {:induction false} FilterMapHas<A, B>(xs: seq<A>, f: A -> Option<B>, y: B)
    ensures y in FilterMap(xs, f) <==> exists i :: 0 <= i < |xs| && f(xs[i]) == Some(y)
  {
    if xs != [] {
      var init, n := xs[..|xs| - 1], |xs| - 1;
      FilterMapHas(init, f, y);
      var tail := if f(xs[n]).Some? then [f(xs[n]).value] else [];
      assert FilterMap(xs, f) == FilterMap(init, f) + tail;
      assert y in tail <==> f(xs[n]) == Some(y);
      if y in FilterMap(init, f) {
        var i :| 0 <= i < |init| && f(init[i]) == Some(y);
        assert xs[i] == init[i];
      }
      if exists i :: 0 <= i < |xs| && f(xs[i]) == Some(y) {
        var i :| 0 <= i < |xs| && f(xs[i]) == Some(y);
        if i < n { assert init[i] == xs[i]; }
      }
    }
  }

  /** Every element either converts or is counted. */
  lemma {:induction false} FilterMapLength<A, B>(xs: seq<A>, f: A -> Option<B>)
    ensures |FilterMap(xs, f)| + CountNone(xs, f) == |xs|
  {
    if xs != [] {
      FilterMapLength(xs[..|xs| - 1], f);
    }
  }

  /** Converting a longer list appends the conversions of the extra elements. */
  lemma {:induction false} FilterMapConcat<A, B>(xs: seq<A>, ys: seq<A>, f: A -> Option<B>)
    ensures FilterMap(xs + ys, f) == FilterMap(xs, f) + FilterMap(ys, f)
    decreases |ys|
  {
    if ys == [] {
      assert xs + ys == xs;
    } else {
      var init := ys[..|ys| - 1];
      FilterMapConcat(xs, init, f);
      assert (xs + ys)[..|xs + ys| - 1] == xs + init;
    }
  }

  /** A list without repetitions. */
  predicate Distinct<T(==)>(xs: seq<T>) {
    forall i, j :: 0 <= i < j < |xs| ==> xs[i] != xs[j]
  }

  /** Over an order that lists exactly the members of a set, a value is kept
      exactly when some member converts to it. */
  lemma FilterMapOverSet<A, B>(order: seq<A>, members: set<A>, f: A -> Option<B>, y: B)
    requires forall k :: k in order <==> k in members
    ensures y in FilterMap(order, f) <==> exists k :: k in members && f(k) == Some(y)
  {
    FilterMapMembers(order, f);
    if exists k :: k in members && f(k) == Some(y) {
      var k :| k in members && f(k) == Some(y);
      var i :| 0 <= i < |order| && order[i] == k;
    }
  }

  /** Converting one more element appends its conversion, if any. */
  lemma FilterMapSnoc<A, B>(xs: seq<A>, x: A, f: A -> Option<B>)
    ensures FilterMap(xs + [x], f) == FilterMap(xs, f) + (match f(x) case Some(y) => [y] case None => [])
  {
    assert (xs + [x])[..|xs|] == xs;
  }

  /** A Go `for k := range m` loop that appends f's successful
      conversions: the keys are visited in an unspecified order, recorded in
      the ghost `order`, which lists each key exactly once. */
  method FilterMapKeys<K, V>(keys: set<K>, f: K -> Option<V>) returns (ys: seq<V>, ghost order: seq<K>)
    ensures ys == FilterMap(order, f)
    ensures Distinct(order) && forall k :: k in order <==> k in keys
  {
    ys := [];
    order := [];
    var remaining := keys;
    while remaining != {}
      invariant remaining <= keys
      invariant forall k :: k in order ==> k in keys && k !in remaining
      invariant forall k :: k in keys ==> k in order || k in remaining
      invariant Distinct(order)
      invariant ys == FilterMap(order, f)
      decreases remaining
    {
      var k :| k in remaining;
      var y := f(k);
      FilterMapSnoc(order, k, f);
      if y.Some? {
        ys := ys + [y.value];
      }
      order := order + [k];
      remaining := remaining - {k};
    }
  }

  /** A Go `for k := range m` loop that shares a seen-set across maps: each
      key not seen before is marked seen and converted, in an unspecified
      order recorded in the ghost `order`. */
  method FilterMapUnseenKeys<K, V>(keys: set<K>, seen: set<K>, f: K -> Option<V>)
    returns (ys: seq<V>, seen': set<K>, ghost order: seq<K>)
    ensures seen' == seen + keys
    ensures ys == FilterMap(order, f)
    ensures Distinct(order) && forall k :: k in order <==> k in keys && k !in seen
  {
    ys := [];
    order := [];
    seen' := seen;
    var remaining := keys;
    while remaining != {}
      invariant remaining <= keys
      invariant seen' == seen + (keys - remaining)
      invariant forall k :: k in order <==> k in keys && k !in remaining && k !in seen
      invariant Distinct(order)
      invariant ys == FilterMap(order, f)
      decreases remaining
    {
      var k :| k in remaining;
      if k !in seen' {
        FilterMapSnoc(order, k, f);
        var y := f(k);
        if y.Some? {
          ys := ys + [y.value];
        }
        order := order + [k];
        seen' := seen' + {k};
      }
      remaining := remaining - {k};
    }
  }

  /** The union of the elements' key sets. */
  function UnionOf<A, K>(xs: seq<A>, keysOf: A -> set<K>): set<K> {
    if xs == [] then {} else UnionOf(xs[..|xs| - 1], keysOf) + keysOf(xs[|xs| - 1])
  }

  /** A key is in the union exactly when some element has it. */
  lemma {:induction false} UnionOfMembers<A, K>(xs: seq<A>, keysOf: A -> set<K>, k: K)
    ensures k in UnionOf(xs, keysOf) <==> exists i :: 0 <= i < |xs| && k in keysOf(xs[i])
  {
    if xs != [] {
      var init := xs[..|xs| - 1];
      UnionOfMembers(init, keysOf, k);
      assert forall i :: 0 <= i < |init| ==> init[i] == xs[i];
    }
  }

  /** Nested Go range loops sharing one seen-set: for each element in turn,
      each of its keys not seen before is marked seen and converted. Every key
      of the union is considered exactly once, in element order and in an
      unspecified order within an element, recorded in the ghost `keys`. */
  method FilterMapUnseenAcross<A, K, V>(xs: seq<A>, keysOf: A -> set<K>, f: K -> Option<V>)
    returns (ys: seq<V>, ghost keys: seq<K>)
    ensures ys == FilterMap(keys, f)
    ensures Distinct(keys) && forall k :: k in keys <==> k in UnionOf(xs, keysOf)
  {
    var seen: set<K> := {};
    ys := [];
    keys := [];
    var i := 0;
    while i < |xs|
      invariant 0 <= i <= |xs|
      invariant seen == UnionOf(xs[..i], keysOf)
      invariant Distinct(keys) && forall k :: k in keys <==> k in seen
      invariant ys == FilterMap(keys, f)
    {
      var added, seen';
      ghost var order;
      added, seen', order := FilterMapUnseenKeys(keysOf(xs[i]), seen, f);
      FilterMapConcat(keys, order, f);
      DistinctConcat(keys, order);
      assert xs[..i + 1][..i] == xs[..i];
      ys := ys + added;
      keys := keys + order;
      seen := seen';
      i := i + 1;
    }
    assert xs[..i] == xs;
  }

  /** Two lists without repetitions and without common elements concatenate
      to a list without repetitions. */
  lemma DistinctConcat<T>(xs: seq<T>, ys: seq<T>)
    requires Distinct(xs) && Distinct(ys)
    requires forall k :: k in xs ==> k !in ys
    ensures Distinct(xs + ys)
  {
    forall i, j | 0 <= i < j < |xs + ys|
      ensures (xs + ys)[i] != (xs + ys)[j]
    {
      if i < |xs| && j >= |xs| {
        assert (xs + ys)[i] in xs && (xs + ys)[j] == ys[j - |xs|];
      }
    }
  }

  /** Converting distinct elements by a conversion whose results name their
      element (`key(y) == x` whenever `f(x) == Some(y)`) gives results with
      distinct keys. */
  lemma {:induction false} FilterMapDistinctKeys<A, B>(xs: seq<A>, f: A -> Option<B>, key: B -> A)
    requires Distinct(xs)
    requires forall i :: 0 <= i < |xs| && f(xs[i]).Some? ==> key(f(xs[i]).value) == xs[i]
    ensures forall i, j :: 0 <= i < j < |FilterMap(xs, f)| ==> key(FilterMap(xs, f)[i]) != key(FilterMap(xs, f)[j])
  {
    if xs != [] {
      var init, x := xs[..|xs| - 1], xs[|xs| - 1];
      assert forall i :: 0 <= i < |init| ==> init[i] == xs[i];
      FilterMapDistinctKeys(init, f, key);
      var r := FilterMap(init, f);
      forall i | 0 <= i < |r|
        ensures key(r[i]) in init
      {
        FilterMapSource(init, f, r[i]);
      }
      assert x !in init;
    }
  }

  /** Every kept value comes from some element. */
  lemma FilterMapSource<A, B>(xs: seq<A>, f: A -> Option<B>, y: B)
    requires y in FilterMap(xs, f)
    ensures exists k :: 0 <= k < |xs| && f(xs[k]) == Some(y)
  {
    FilterMapMembers(xs, f);
  }

  /** A Go `for k := range m` loop whose body appends a row per key and adds
      a count per key: the keys are visited in an unspecified order recorded
      in the ghost `order`. */
  method FlatMapKeys<K, V>(keys: set<K>, row: K -> seq<V>, count: K -> nat)
    returns (ys: seq<V>, n: nat, ghost order: seq<K>)
    ensures ys == FlatMap(order, row) && n == SumOf(order, count)
    ensures Distinct(order) && forall k :: k in order <==> k in keys
  {
    ys, n := [], 0;
    order := [];
    var remaining := keys;
    while remaining != {}
      invariant remaining <= keys
      invariant forall k :: k in order ==> k in keys && k !in remaining
      invariant forall k :: k in keys ==> k in order || k in remaining
      invariant Distinct(order)
      invariant ys == FlatMap(order, row) && n == SumOf(order, count)
      decreases remaining
    {
      var k :| k in remaining;
      assert (order + [k])[..|order|] == order;
      ys, n := ys + row(k), n + count(k);
      order := order + [k];
      remaining := remaining - {k};
    }
  }

  /** Converting one element more of a list's prefix. */
  lemma FilterMapPrefixStep<A, B>(xs: seq<A>, j: int, f: A -> Option<B>)
    requires 0 <= j < |xs|
    ensures f(xs[j]).Some? ==> FilterMap(xs[..j + 1], f) == FilterMap(xs[..j], f) + [f(xs[j]).value]
    ensures f(xs[j]).None? ==> FilterMap(xs[..j + 1], f) == FilterMap(xs[..j], f)
    ensures CountNone(xs[..j + 1], f) == CountNone(xs[..j], f) + (if f(xs[j]).None? then 1 else 0)
  {
    assert xs[..j + 1][..j] == xs[..j];
  }

  /** The rows of the elements, concatenated in order: a nested append loop. */
  function FlatMap<A, B>(xs: seq<A>, row: A -> seq<B>): seq<B>
  {
    if xs == [] then []
    else FlatMap(xs[..|xs| - 1], row) + row(xs[|xs| - 1])
  }

  /** The sum of a count over the elements. */
  function SumOf<A>(xs: seq<A>, count: A -> nat): nat
  {
    if xs == [] then 0
    else SumOf(xs[..|xs| - 1], count) + count(xs[|xs| - 1])
  }

  /** A sum of counts is zero exactly when every count is. */
  lemma {:induction false} SumOfZero<A>(xs: seq<A>, count: A -> nat)
    ensures SumOf(xs, count) == 0 <==> forall i :: 0 <= i < |xs| ==> count(xs[i]) == 0
  {
    if xs != [] {
      var init := xs[..|xs| - 1];
      SumOfZero(init, count);
      assert forall i :: 0 <= i < |init| ==> init[i] == xs[i];
    }
  }

  /** A sum of counts that are each at most one is at most the length, and
      it is zero exactly when every count is. */
  lemma {:induction false} SumOfIndicators<A>(xs: seq<A>, count: A -> nat)
    requires forall i :: 0 <= i < |xs| ==> count(xs[i]) <= 1
    ensures SumOf(xs, count) <= |xs|
    ensures SumOf(xs, count) == 0 <==> forall i :: 0 <= i < |xs| ==> count(xs[i]) == 0
  {
    if xs != [] {
      var init := xs[..|xs| - 1];
      assert forall i :: 0 <= i < |init| ==> init[i] == xs[i];
      SumOfIndicators(init, count);
    }
  }

  /** One element more of a list's prefix appends its row and adds its count. */
  lemma FlatMapPrefixStep<A, B>(xs: seq<A>, i: int, row: A -> seq<B>, count: A -> nat)
    requires 0 <= i < |xs|
    ensures FlatMap(xs[..i + 1], row) == FlatMap(xs[..i], row) + row(xs[i])
    ensures SumOf(xs[..i + 1], count) == SumOf(xs[..i], count) + count(xs[i])
  {
    assert xs[..i + 1][..i] == xs[..i];
  }

  /** A value is in the concatenation exactly when it is in some element's row. */
  lemma {:induction false} FlatMapMembers<A, B>(xs: seq<A>, row: A -> seq<B>, y: B)
    ensures y in FlatMap(xs, row) <==> exists i :: 0 <= i < |xs| && y in row(xs[i])
  {
    if xs != [] {
      var init, n := xs[..|xs| - 1], |xs| - 1;
      FlatMapMembers(init, row, y);
      if y in FlatMap(init, row) {
        var i :| 0 <= i < |init| && y in row(init[i]);
        assert xs[i] == init[i];
      }
      if exists i :: 0 <= i < |xs| && y in row(xs[i]) {
        var i :| 0 <= i < |xs| && y in row(xs[i]);
        if i < n { assert init[i] == xs[i]; }
      }
    }
  }

  /** When every element's row and count add up to k, the whole
      concatenation and the total count add up to k per element. */
  lemma {:induction false} FlatMapAccounting<A, B>(xs: seq<A>, row: A -> seq<B>, count: A -> nat, k: nat)
    requires forall i :: 0 <= i < |xs| ==> |row(xs[i])| + count(xs[i]) == k
    ensures |FlatMap(xs, row)| + SumOf(xs, count) == k * |xs|
  {
    if xs != [] {
      var init := xs[..|xs| - 1];
      assert forall i :: 0 <= i < |init| ==> init[i] == xs[i];
      FlatMapAccounting(init, row, count, k);
      MulSucc(k, |init|);
    }
  }

  /** Appending an element appends its row and adds its count. */
  lemma FlatMapSnoc<A, B>(xs: seq<A>, x: A, row: A -> seq<B>, count: A -> nat)
    ensures FlatMap(xs + [x], row) == FlatMap(xs, row) + row(x)
    ensures SumOf(xs + [x], count) == SumOf(xs, count) + count(x)
  {
    assert (xs + [x])[..|xs|] == xs;
  }

  /** One element more of a list's prefix adds its count. */
  lemma SumOfPrefixStep<A>(xs: seq<A>, i: int, count: A -> nat)
    requires 0 <= i < |xs|
    ensures SumOf(xs[..i + 1], count) == SumOf(xs[..i], count) + count(xs[i])
  {
    assert xs[..i + 1][..i] == xs[..i];
  }

  /** A property every row's values have holds of the whole concatenation. */
  lemma FlatMapAll<A, B>(xs: seq<A>, row: A -> seq<B>, p: B -> bool)
    requires forall i, y :: 0 <= i < |xs| && y in row(xs[i]) ==> p(y)
    ensures forall k :: 0 <= k < |FlatMap(xs, row)| ==> p(FlatMap(xs, row)[k])
  {
    forall k | 0 <= k < |FlatMap(xs, row)|
      ensures p(FlatMap(xs, row)[k])
    {
      FlatMapMembers(xs, row, FlatMap(xs, row)[k]);
    }
  }

  /** Each element's image, in order. */
  function MapSeq<A, B>(xs: seq<A>, f: A -> B): (r: seq<B>)
    ensures |r| == |xs| && forall i :: 0 <= i < |xs| ==> r[i] == f(xs[i])
  {
    if xs == [] then [] else MapSeq(xs[..|xs| - 1], f) + [f(xs[|xs| - 1])]
  }

  /** One element more of a list's prefix appends its image. */
  lemma MapSeqPrefixStep<A, B>(xs: seq<A>, i: int, f: A -> B)
    requires 0 <= i < |xs|
    ensures MapSeq(xs[..i + 1], f) == MapSeq(xs[..i], f) + [f(xs[i])]
  {
    assert xs[..i + 1][..i] == xs[..i];
  }
}
