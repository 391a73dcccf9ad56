/** The value selector of model/value.go: validation of the samples, the
    in-place sort by (timestamp, null first, ascending value), and the
    backward scan that picks the latest non-null sample and scales it by the
    unit's multiplier. */
module Values {
  import opened Wrappers
  import opened Timestamps
  import opened Units
  import opened GoSort

  /** One Atlas sample: a timestamp string and a possibly absent value. */
  datatype DataPoint = DataPoint(timestamp: string, value: Option<real>)

  /** The time the sort comparator sees for a sample. */
  function Time(dp: DataPoint): Instant {
    TimeOf(dp.timestamp)
  }

  /** The comparator handed to sort.Slice, transcribed branch by branch. */
  predicate Less(x: DataPoint, y: DataPoint) {
    if Time(x) != Time(y) then Before(Time(x), Time(y))
    else if x.value.None? then true
    else if y.value.Some? then x.value.value < y.value.value
    else false
  }

  /** The strict weak order the comparator intends: lexicographic on
      (time, null before value, value). */
  predicate Precedes(x: DataPoint, y: DataPoint) {
    if Time(x) != Time(y) then Before(Time(x), Time(y))
    else if x.value.None? then y.value.Some?
    else y.value.Some? && x.value.value < y.value.value
  }

  /** The comparator and the intended order differ exactly on two null
      samples with the same time, where the comparator answers true both ways. */
  lemma LessIsPrecedesUpToNulls(x: DataPoint, y: DataPoint)
    ensures Less(x, y) <==> Precedes(x, y) || (Time(x) == Time(y) && x.value.None? && y.value.None?)
    ensures Less(x, y) && Less(y, x) <==> Time(x) == Time(y) && x.value.None? && y.value.None?
  {
  }

  /** Precedes is irreflexive and transitive, and its incomparability is
      transitive ("not after" chains). */
  lemma PrecedesStrictWeakOrder(x: DataPoint, y: DataPoint, z: DataPoint)
    ensures !Precedes(x, x)
    ensures Precedes(x, y) ==> !Precedes(y, x)
    ensures Precedes(x, y) && Precedes(y, z) ==> Precedes(x, z)
    ensures !Precedes(y, x) && !Precedes(z, y) ==> !Precedes(z, x)
  {
  }

  /** No sample is followed by one that strictly precedes it. */
  predicate Sorted(s: seq<DataPoint>) {
    forall p, q :: 0 <= p < q < |s| ==> !Precedes(s[q], s[p])
  }

  /** Precedes meets sort.Slice's requirement on its less function. */
  lemma PrecedesIsStrictWeakOrder()
    ensures StrictWeakOrder(Precedes)
  {
    forall x, y, z {
      PrecedesStrictWeakOrder(x, y, z);
    }
  }

  /** sortDataPoints: sort.Slice over the samples. Go passes the comparator
      Less, which is not a strict weak order on two nulls at the same time
      (LessIsPrecedesUpToNulls), so the model sorts by Precedes; every sorted
      permutation leads PromVal to the same result (PromValueOrderIndependent). */
  method SortDataPoints(a: array<DataPoint>)
    modifies a
    ensures Sorted(a[..])
    ensures multiset(a[..]) == multiset(old(a[..]))
  {
    PrecedesIsStrictWeakOrder();
    SortSlice(a, Precedes);
    assert SortedBy(a[..], Precedes);
  }

  /** Why PromVal can fail. */
  datatype ValueError =
    | NoDatapoints                       // ErrNoDatapoints, "no datapoints are available"
    | TimestampError(timestamp: string)  // the time.Parse error for this timestamp

  /** The first sample whose timestamp does not parse, if any. */
  function FirstUnparsable(s: seq<DataPoint>): (r: Option<string>)
    ensures r.None? <==> forall i :: 0 <= i < |s| ==> Parses(s[i].timestamp)
    ensures r.Some? ==> exists i :: 0 <= i < |s| && s[i].timestamp == r.value && !Parses(r.value)
                                  && forall k :: 0 <= k < i ==> Parses(s[k].timestamp)
  {
    if s == [] then None
    else if !Parses(s[0].timestamp) then Some(s[0].timestamp)
    else
      var r := FirstUnparsable(s[1..]);
      assert r.Some? ==> exists i :: 1 <= i < |s| && s[i].timestamp == r.value && !Parses(r.value)
                                  && forall k :: 0 <= k < i ==> Parses(s[k].timestamp) by {
        if r.Some? {
          var i :| 0 <= i < |s[1..]| && s[1..][i].timestamp == r.value && !Parses(r.value)
                   && forall k :: 0 <= k < i ==> Parses(s[1..][k].timestamp);
          assert forall k :: 0 <= k < i + 1 ==> Parses(s[k].timestamp) by {
            forall k | 0 <= k < i + 1 ensures Parses(s[k].timestamp) {
              if k > 0 { assert s[k] == s[1..][k - 1]; }
            }
          }
        }
      }
      r
  }

  /** What containsValidDataPoints decides. */
  function Validation(s: seq<DataPoint>): (r: Option<ValueError>)
    ensures r.None? <==> |s| > 0 && forall i :: 0 <= i < |s| ==> Parses(s[i].timestamp)
    ensures r == Some(NoDatapoints) <==> |s| == 0
  {
    if |s| == 0 then Some(NoDatapoints)
    else match FirstUnparsable(s)
      case None => None
      case Some(t) => Some(TimestampError(t))
  }

  /** containsValidDataPoints: ErrNoDatapoints for no samples, otherwise the
      parse error of the first sample whose timestamp is not in the layout. */
  method ContainsValidDataPoints(s: seq<DataPoint>) returns (err: Option<ValueError>)
    ensures err == Validation(s)
  {
    if |s| < 1 {
      return Some(NoDatapoints);
    }
    var i := 0;
    while i < |s|
      invariant 0 <= i <= |s|
      invariant forall k :: 0 <= k < i ==> Parses(s[k].timestamp)
      invariant FirstUnparsable(s) == FirstUnparsable(s[i..])
    {
      assert s[i..][1..] == s[i + 1..];
      if !Parses(s[i].timestamp) {
        return Some(TimestampError(s[i].timestamp));
      }
      i := i + 1;
    }
    return None;
  }

  /** convertValue: the value times the unit's multiplier (0 for an unknown unit). */
  function ConvertValue(v: real, u: UnitEnum): (r: real)
    ensures KnownUnit(u) ==> r == v * UnitsTransformationRules[u].valueMultiplier
    ensures !KnownUnit(u) ==> r == 0.0
  {
    v * Multiplier(u)
  }

  /** The (time, value) of a non-null sample. */
  function Reading(dp: DataPoint): (Instant, real)
    requires dp.value.Some?
  {
    (Time(dp), dp.value.value)
  }

  /** Lexicographic order on readings: earlier, or same time and smaller. */
  predicate Below(p: (Instant, real), q: (Instant, real)) {
    Before(p.0, q.0) || (p.0 == q.0 && p.1 < q.1)
  }

  /** The declarative selection: the reading of the latest non-null sample,
      the largest value on equal times; None when every sample is null. */
  function Latest(s: seq<DataPoint>): Option<(Instant, real)>
  {
    if s == [] then None
    else
      var acc := Latest(s[..|s| - 1]);
      var dp := s[|s| - 1];
      if dp.value.None? then acc
      else if acc.Some? && !Below(acc.value, Reading(dp)) then acc
      else Some(Reading(dp))
  }

  /** Latest picks the reading of some non-null sample, one that no non-null
      sample's reading is above, and is None exactly when every sample is null. */
  lemma {:induction false} LatestIsMaximum(s: seq<DataPoint>)
    ensures Latest(s).Some? ==> exists dp :: dp in s && dp.value.Some? && Reading(dp) == Latest(s).value
    ensures forall dp :: dp in s && dp.value.Some? ==> Latest(s).Some? && !Below(Latest(s).value, Reading(dp))
  {
    if s != [] {
      var init := s[..|s| - 1];
      var last := s[|s| - 1];
      LatestIsMaximum(init);
      assert s == init + [last];
      assert forall dp :: dp in s <==> dp in init || dp == last;
      if Latest(init).Some? && last.value.Some? {
        var acc := Latest(init).value;
        BelowTotalOrder(acc, Reading(last), acc);
        if Below(acc, Reading(last)) {
          forall dp | dp in init && dp.value.Some?
            ensures !Below(Reading(last), Reading(dp))
          {
            BelowTotalOrder(acc, Reading(last), Reading(dp));
          }
        }
      }
    }
  }

  /** Below is a strict total order on readings. */
  lemma BelowTotalOrder(p: (Instant, real), q: (Instant, real), r: (Instant, real))
    ensures !Below(p, p)
    ensures Below(p, q) && Below(q, r) ==> Below(p, r)
    ensures !Below(p, r) && Below(p, q) ==> !Below(q, r)
    ensures p == q || Below(p, q) || Below(q, p)
  {
    BeforeTotalOrder(p.0, q.0, r.0);
    BeforeTotalOrder(r.0, p.0, q.0);
  }

  /** Latest depends only on the multiset of samples, not their order. */
  lemma LatestOrderIndependent(s: seq<DataPoint>, t: seq<DataPoint>)
    requires multiset(s) == multiset(t)
    ensures Latest(s) == Latest(t)
  {
    assert forall dp :: dp in s <==> dp in t by {
      forall dp ensures dp in s <==> dp in t {
        assert dp in s <==> dp in multiset(s);
        assert dp in t <==> dp in multiset(t);
      }
    }
    LatestIsMaximum(s);
    LatestIsMaximum(t);
    if Latest(s).Some? {
      var dp :| dp in s && dp.value.Some? && Reading(dp) == Latest(s).value;
      var dq :| dq in t && dq.value.Some? && Reading(dq) == Latest(t).value;
      BelowTotalOrder(Latest(s).value, Latest(t).value, Latest(s).value);
    }
  }

  /** What PromVal returns, on the samples as they are before it sorts them. */
  function PromValue(s: seq<DataPoint>, u: UnitEnum): (r: Result<real, ValueError>)
    ensures r.Err? <==> Validation(s).Some?
    ensures r.Err? ==> r.error == Validation(s).value
  {
    match Validation(s)
    case Some(e) => Err(e)
    case None => Ok(Selected(s, u))
  }

  /** The value the backward scan returns: the latest reading's value
      converted to the base unit, or 0 when every sample is null. */
  function Selected(s: seq<DataPoint>, u: UnitEnum): real {
    match Latest(s)
    case None => 0.0
    case Some(p) => ConvertValue(p.1, u)
  }

  /** The result of PromVal does not depend on the order of the samples;
      only which unparsable timestamp an error names can differ. */
  lemma PromValueOrderIndependent(s: seq<DataPoint>, t: seq<DataPoint>, u: UnitEnum)
    requires multiset(s) == multiset(t)
    ensures PromValue(s, u).Ok? <==> PromValue(t, u).Ok?
    ensures PromValue(s, u).Ok? ==> PromValue(s, u) == PromValue(t, u)
    ensures PromValue(s, u) == Err(NoDatapoints) <==> PromValue(t, u) == Err(NoDatapoints)
  {
    assert |s| == |multiset(s)| == |multiset(t)| == |t|;
    assert forall i :: 0 <= i < |s| ==> s[i] in multiset(t);
    assert forall i :: 0 <= i < |t| ==> t[i] in multiset(s);
    if Validation(s).None? {
      forall i | 0 <= i < |t| ensures Parses(t[i].timestamp) {
        var k :| 0 <= k < |s| && s[k] == t[i];
      }
    }
    if Validation(t).None? {
      forall i | 0 <= i < |s| ensures Parses(s[i].timestamp) {
        var k :| 0 <= k < |t| && t[k] == s[i];
      }
    }
    LatestOrderIndependent(s, t);
  }

  /** Null samples at the end do not change the selection. */
  lemma {:induction false} TrailingNulls(s: seq<DataPoint>, n: int)
    requires 0 <= n <= |s|
    requires forall k :: n <= k < |s| ==> s[k].value.None?
    ensures Latest(s) == Latest(s[..n])
    decreases |s|
  {
    if n < |s| {
      TrailingNulls(s[..|s| - 1], n);
      assert s[..|s| - 1][..n] == s[..n];
    } else {
      assert s[..n] == s;
    }
  }

  /** A sample that no non-null sample strictly follows bounds the selection from above. */
  lemma {:induction false} LatestAtMost(s: seq<DataPoint>, x: DataPoint)
    requires x.value.Some?
    requires forall k :: 0 <= k < |s| && s[k].value.Some? ==> !Precedes(x, s[k])
    ensures Latest(s).None? || !Below(Reading(x), Latest(s).value)
  {
    if s != [] {
      LatestAtMost(s[..|s| - 1], x);
    }
  }

  /** Scanning a sorted sequence backwards, the last non-null sample carries the maximum reading. */
  lemma LastNonNullIsLatest(s: seq<DataPoint>, i: int)
    requires Sorted(s)
    requires 0 <= i < |s| && s[i].value.Some?
    requires forall k :: i < k < |s| ==> s[k].value.None?
    ensures Latest(s) == Some(Reading(s[i]))
  {
    TrailingNulls(s, i + 1);
    SortedPrefixAtMost(s, i);
    var acc := Latest(s[..i]);
    LatestOfNonNullLast(s[..i + 1]);
    assert s[..i + 1][..i] == s[..i] && s[..i + 1][i] == s[i];
    if acc.Some? {
      BeforeTotalOrder(acc.value.0, Reading(s[i]).0, acc.value.0);
    }
  }

  /** In a sorted sequence, no sample's reading is below the selection of the samples before it. */
  lemma SortedPrefixAtMost(s: seq<DataPoint>, i: int)
    requires Sorted(s) && 0 <= i < |s| && s[i].value.Some?
    ensures Latest(s[..i]).None? || !Below(Reading(s[i]), Latest(s[..i]).value)
  {
    forall k | 0 <= k < |s[..i]| && s[..i][k].value.Some?
      ensures !Precedes(s[i], s[..i][k])
    {
      assert s[..i][k] == s[k];
    }
    LatestAtMost(s[..i], s[i]);
  }

  /** A non-null last sample is selected unless the earlier selection is not below it. */
  lemma LatestOfNonNullLast(t: seq<DataPoint>)
    requires t != [] && t[|t| - 1].value.Some?
    ensures var acc := Latest(t[..|t| - 1]);
      Latest(t) == if acc.Some? && !Below(acc.value, Reading(t[|t| - 1])) then acc else Some(Reading(t[|t| - 1]))
  {
  }

  /** Measurement.PromVal on the DataPoints slice it aliases: validate, sort in
      place, then scan from the end for the first non-null value. On an error
      the samples are untouched; on success they are left sorted. */
  method PromVal(a: array<DataPoint>, u: UnitEnum) returns (r: Result<real, ValueError>)
    modifies a
    ensures r == PromValue(old(a[..]), u)
    ensures r.Err? ==> a[..] == old(a[..])
    ensures r.Ok? ==> Sorted(a[..]) && multiset(a[..]) == multiset(old(a[..]))
  {
    var err := ContainsValidDataPoints(a[..]);
    if err.Some? {
      return Err(err.value);
    }
    ghost var before := a[..];
    SortDataPoints(a);
    var v := ScanLatest(a, u);
    LatestOrderIndependent(before, a[..]);
    return Ok(v);
  }

  /** The backward loop of PromVal over sorted samples: the first non-null
      value from the end, converted, or 0 when there is none. */
  method ScanLatest(a: array<DataPoint>, u: UnitEnum) returns (v: real)
    requires Sorted(a[..])
    ensures v == Selected(a[..], u)
  {
    var i := a.Length - 1;
    while i >= 0
      invariant -1 <= i < a.Length
      invariant forall k :: i < k < a.Length ==> a[k].value.None?
    {
      if a[i].value.Some? {
        LastNonNullIsLatest(a[..], i);
        return ConvertValue(a[i].value.value, u);
      }
      i := i - 1;
    }
    TrailingNulls(a[..], 0);
    return 0.0;
  }

  /** PromVal on a copy of the samples, as the collectors see it: the caller's
      ordering is not observable in the result. */
  method PromValOf(s: seq<DataPoint>, u: UnitEnum) returns (r: Result<real, ValueError>)
    ensures r == PromValue(s, u)
  {
    var a := new DataPoint[|s|](k requires 0 <= k < |s| => s[k]);
    assert a[..] == s;
    r := PromVal(a, u);
  }

  /** From the value tests: no samples is an error. */
  lemma PromValueNoSamples()
    ensures PromValue([], SCALAR) == Err(NoDatapoints)
  {
  }

  /** From the value tests: only null samples give 0. */
  lemma PromValueNullOnly()
    ensures PromValue([DataPoint("2021-03-04T16:53:06Z", None)], SCALAR) == Ok(0.0)
  {
    EarlyParses();
  }

  /** From the value tests: the latest non-null value, scaled by the unit's multiplier. */
  lemma PromValueScaled()
    ensures PromValue([DataPoint("2021-03-04T16:53:06Z", Some(2.0)),
                       DataPoint("2021-03-04T16:54:06Z", None)], MILLISECONDS) == Ok(0.002)
  {
    EarlyParses();
    LateParses();
    var a, b := DataPoint("2021-03-04T16:53:06Z", Some(2.0)), DataPoint("2021-03-04T16:54:06Z", None);
    PromValueOfPair(a, b, MILLISECONDS);
    assert ConvertValue(2.0, MILLISECONDS) == 0.002;
  }

  /** Two parsable samples, the second null: the first one's value, converted. */
  lemma PromValueOfPair(a: DataPoint, b: DataPoint, u: UnitEnum)
    requires Parses(a.timestamp) && Parses(b.timestamp)
    requires a.value.Some? && b.value.None?
    ensures PromValue([a, b], u) == Ok(ConvertValue(a.value.value, u))
  {
    var s := [a, b];
    assert s[..|s| - 1] == [a] && [a][..0] == [];
    assert Validation(s).None?;
    assert Latest([a]) == Some(Reading(a));
    assert Latest(s) == Latest([a]);
  }

  /** From the value tests: a sample whose timestamp does not parse is an error naming it. */
  lemma PromValueBadTimestamp()
    ensures PromValue([DataPoint("", Some(1.0))], SCALAR) == Err(TimestampError(""))
  {
    assert !Parses("");
  }
}
