/** Go's sort.Slice(x, less): an in-place, not necessarily stable sort of a
    slice by a caller-supplied "less" function, which sort.Slice requires to
    be a strict weak ordering. Insertion sort stands in for Go's algorithm. */
module GoSort {

  /** Irreflexive, transitive, and with transitive incomparability. */
  ghost predicate StrictWeakOrder<T(!new)>(less: (T, T) -> bool) {
    && (forall x :: !less(x, x))
    && (forall x, y, z :: less(x, y) && less(y, z) ==> less(x, z))
    && (forall x, y, z :: !less(y, x) && !less(z, y) ==> !less(z, x))
  }

  /** No element is followed by one that is strictly less. */
  ghost predicate SortedBy<T>(s: seq<T>, less: (T, T) -> bool) {
    forall p, q :: 0 <= p < q < |s| ==> !less(s[q], s[p])
  }

  /** sort.Slice: afterwards the slice is sorted by `less` and holds the same elements. */
  method SortSlice<T(!new)>(a: array<T>, less: (T, T) -> bool)
    requires StrictWeakOrder(less)
    modifies a
    ensures SortedBy(a[..], less)
    ensures multiset(a[..]) == multiset(old(a[..]))
  {
    var i := 0;
    while i < a.Length
      invariant 0 <= i <= a.Length
      invariant forall p, q :: 0 <= p < q < i ==> !less(a[q], a[p])
      invariant multiset(a[..]) == multiset(old(a[..]))
    {
      InsertLast(a, i, less);
      i := i + 1;
    }
  }

  /** Moves a[i] left into the sorted run a[..i], leaving a[..i+1] sorted. */
  method InsertLast<T(!new)>(a: array<T>, i: int, less: (T, T) -> bool)
    requires StrictWeakOrder(less)
    requires 0 <= i < a.Length
    requires forall p, q :: 0 <= p < q < i ==> !less(a[q], a[p])
    modifies a
    ensures forall p, q :: 0 <= p < q <= i ==> !less(a[q], a[p])
    ensures multiset(a[..]) == multiset(old(a[..]))
  {
    var j := i;
    while j > 0 && less(a[j], a[j - 1])
      invariant 0 <= j <= i
      invariant Inserting(a[..], j, i, less)
      invariant multiset(a[..]) == multiset(old(a[..]))
    {
      InsertingStep(a[..], j, i, less);
      a[j], a[j - 1] := a[j - 1], a[j];
      j := j - 1;
    }
    InsertingDone(a[..], j, i, less);
  }

  /** The state of InsertLast's loop: the moving element sits at j, the run
      before it and the run from it to i are sorted, and nothing after j is
      less than anything before it. */
  ghost predicate Inserting<T>(s: seq<T>, j: int, i: int, less: (T, T) -> bool)
    requires 0 <= j <= i < |s|
  {
    && (forall p, q :: 0 <= p < q < j ==> !less(s[q], s[p]))
    && (forall p, q :: j <= p < q <= i ==> !less(s[q], s[p]))
    && (forall p, q :: 0 <= p < j < q <= i ==> !less(s[q], s[p]))
  }

  /** Swapping the moving element with a greater left neighbour keeps the state. */
  lemma InsertingStep<T(!new)>(s: seq<T>, j: int, i: int, less: (T, T) -> bool)
    requires StrictWeakOrder(less)
    requires 0 < j <= i < |s| && Inserting(s, j, i, less) && less(s[j], s[j - 1])
    ensures Inserting(s[j := s[j - 1]][j - 1 := s[j]], j - 1, i, less)
  {
  }

  /** The loop's exit leaves a[..i+1] sorted. */
  lemma InsertingDone<T(!new)>(s: seq<T>, j: int, i: int, less: (T, T) -> bool)
    requires StrictWeakOrder(less)
    requires 0 <= j <= i < |s| && Inserting(s, j, i, less) && (j == 0 || !less(s[j], s[j - 1]))
    ensures forall p, q :: 0 <= p < q <= i ==> !less(s[q], s[p])
  {
  }
}
