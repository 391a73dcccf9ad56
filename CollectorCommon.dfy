/** collector/common.go: what every collector shares. A collector keeps an
    `up` gauge, three counters and the measurements it knows, describes its
    metrics, and reports one measurement at a time as a metric or as a
    classified failure. */
module CollectorCommon {
  import opened Wrappers
  import opened Collections
  import opened Prom
  import opened Values
  import opened Measurements
  import opened MeasurementMaps
  import opened BaseMeasurer

  const Namespace: string := "mongodbatlas"

  const UpHelp: string := "Was the last communication with MongoDB Atlas API successful."
  const TotalScrapesHelp: string := "Current total MongoDB Atlas scrapes."
  const ScrapeFailuresHelp: string := "Number of unsuccessful measurement scrapes from MongoDB Atlas API."
  const MeasurementTransformationFailuresHelp: string :=
    "Number of errors during transformation of scraped MongoDB Atlas measurements into Prometheus metrics."

  // ------------------------------------------------------ own gauge and counters

  /** The descriptor of one of the collector's own gauge or counters: no labels. */
  function OwnDesc(prefix: string, name: string, help: string): Desc {
    Desc(BuildFQName(Namespace, prefix, name), help, [], map[])
  }

  function UpDesc(prefix: string): Desc {
    OwnDesc(prefix, "up", UpHelp)
  }

  function TotalScrapesDesc(prefix: string): Desc {
    OwnDesc(prefix, "scrapes_total", TotalScrapesHelp)
  }

  function ScrapeFailuresDesc(prefix: string): Desc {
    OwnDesc(prefix, "scrape_failures_total", ScrapeFailuresHelp)
  }

  function TransformationFailuresDesc(prefix: string): Desc {
    OwnDesc(prefix, "measurement_transformation_failures_total", MeasurementTransformationFailuresHelp)
  }

  /** The four descriptors Describe sends first, in the order it sends them. */
  function OwnDescs(prefix: string): seq<Desc> {
    [UpDesc(prefix), TotalScrapesDesc(prefix), ScrapeFailuresDesc(prefix), TransformationFailuresDesc(prefix)]
  }

  /** The gauge and counters as the samples Collect sends. */
  function GaugeSample(desc: Desc, value: real): Metric {
    Metric(desc, GaugeValue, value, [])
  }

  function CounterSample(desc: Desc, count: nat): Metric {
    Metric(desc, CounterValue, count as real, [])
  }

  /** The four descriptors carry four different metric names. */
  lemma OwnDescsDistinct(prefix: string)
    ensures forall i, j :: 0 <= i < j < |OwnDescs(prefix)| ==> OwnDescs(prefix)[i].fqName != OwnDescs(prefix)[j].fqName
  {
    var names := ["up", "scrapes_total", "scrape_failures_total", "measurement_transformation_failures_total"];
    forall i, j | 0 <= i < j < 4
      ensures OwnDescs(prefix)[i].fqName != OwnDescs(prefix)[j].fqName
    {
      OwnNameLength(prefix, names[i]);
      OwnNameLength(prefix, names[j]);
    }
  }

  /** A collector metric name is as long as its parts; names of different
      lengths therefore differ. */
  lemma OwnNameLength(prefix: string, name: string)
    requires name != ""
    ensures |BuildFQName(Namespace, prefix, name)| == |Namespace| + 1 + (if prefix == "" then 0 else |prefix| + 1) + |name|
  {
  }

  // ------------------------------------------------------ measurement descriptors

  /** How Describe treats one known ID: the measurement's descriptor, or
      nothing when PromDesc fails. */
  function DescOf(entries: map<MeasurementID, Measurement>, prefix: string, labels: seq<string>): MeasurementID -> Option<Desc> {
    k => if k in entries then PromDesc(entries[k], Namespace, prefix, labels).ToOption() else None
  }

  /** The descriptors of the known measurements, visited in the given order. */
  function MeasurementDescs(order: seq<MeasurementID>, entries: map<MeasurementID, Measurement>,
                            prefix: string, labels: seq<string>): seq<Desc> {
    FilterMap(order, DescOf(entries, prefix, labels))
  }

  /** Over an order that visits every known ID once, a descriptor is sent
      exactly when some known ID's measurement describes to it (DescOfKnown
      says that is its PromDesc). */
  lemma MeasurementDescsExactly(order: seq<MeasurementID>, entries: map<MeasurementID, Measurement>,
                                prefix: string, labels: seq<string>, d: Desc)
    requires forall k :: k in order <==> k in entries
    ensures d in MeasurementDescs(order, entries, prefix, labels) <==>
      exists k :: k in entries && DescOf(entries, prefix, labels)(k) == Some(d)
  {
    FilterMapOverSet(order, entries.Keys, DescOf(entries, prefix, labels), d);
  }

  /** There are never more measurement descriptors than IDs visited. */
  lemma MeasurementDescsBound(order: seq<MeasurementID>, entries: map<MeasurementID, Measurement>,
                              prefix: string, labels: seq<string>)
    ensures |MeasurementDescs(order, entries, prefix, labels)| <= |order|
  {
    FilterMapMembers(order, DescOf(entries, prefix, labels));
  }

  lemma DescOfKnown(entries: map<MeasurementID, Measurement>, prefix: string, labels: seq<string>, k: MeasurementID)
    requires k in entries
    ensures DescOf(entries, prefix, labels)(k) == PromDesc(entries[k], Namespace, prefix, labels).ToOption()
  {
  }

  // ------------------------------------------------------ reporting one measurement

  /** Why reportMeasurement sent nothing. */
  datatype ReportError =
    | DescFailure(name: string, reason: string)   // "metric %s description transformation failure: %s"
    | NoData                                      // ErrNoDatapoints, passed through
    | ValueFailure(name: string, cause: ValueError) // "metric %s value transformation failure: %s"

  /** The outcome of one reportMeasurement call: the known measurements, the
      transformation-failure count, what was sent and what was returned. */
  datatype Report = Report(entries: map<MeasurementID, Measurement>, failures: nat, emitted: seq<Metric>, err: Option<ReportError>)

  /** What one call of the collectors' `report`, which is not shown, does to
      what is observed: the samples it sends and the transformation failures
      it counts (reportMeasurement counts them, and `report` hands its
      measurements to reportMeasurement). */
  datatype Reported = Reported(sent: seq<Metric>, failures: nat)

  /** What reportMeasurement does, from the known measurements and the
      failure count before the call. */
  function ReportOf(entries: map<MeasurementID, Measurement>, failures: nat, m: Measurement,
                    prefix: string, defaultLabels: seq<string>, extraLabels: seq<string>): Report
  {
    var known := m.ID() in entries;
    var entries' := if known then entries else entries[m.ID() := m];
    var failures' := if known then failures else failures + 1;
    match PromDesc(m, Namespace, prefix, defaultLabels)
    case Err(reason) => Report(entries', failures' + 1, [], Some(DescFailure(m.name, reason)))
    case Ok(desc) =>
      match PromValue(m.dataPoints, m.units)
      case Err(NoDatapoints) => Report(entries', failures', [], Some(NoData))
      case Err(e) => Report(entries', failures' + 1, [], Some(ValueFailure(m.name, e)))
      case Ok(v) => Report(entries', failures', [Metric(desc, PromType(m), v, extraLabels)], None)
  }

  /** A counted failure: anything but missing data. */
  predicate Counted(err: Option<ReportError>) {
    err.Some? && err.value != NoData
  }

  /** The classification of one report: it sends exactly one gauge with the
      computed value and the extra labels when both the descriptor and the
      value transform, and nothing otherwise; missing data is exactly an
      empty sample list; the failure counter rises once for an unknown ID and
      once for a counted failure, so never by more than two. */
  lemma ReportClassified(entries: map<MeasurementID, Measurement>, failures: nat, m: Measurement,
                         prefix: string, defaultLabels: seq<string>, extraLabels: seq<string>)
    ensures var r := ReportOf(entries, failures, m, prefix, defaultLabels, extraLabels);
      && (r.err.None? <==> PromDesc(m, Namespace, prefix, defaultLabels).Ok? && PromValue(m.dataPoints, m.units).Ok?)
      && (r.err.None? ==> r.emitted == [Metric(PromDesc(m, Namespace, prefix, defaultLabels).value, GaugeValue,
                                                PromValue(m.dataPoints, m.units).value, extraLabels)])
      && (r.err.Some? ==> r.emitted == [])
      && (r.err == Some(NoData) <==> PromDesc(m, Namespace, prefix, defaultLabels).Ok? && m.dataPoints == [])
      && r.failures == failures + (if m.ID() in entries then 0 else 1) + (if Counted(r.err) then 1 else 0)
      && failures <= r.failures <= failures + 2
  {
  }

  /** A report registers an unknown measurement under its ID and leaves every
      known entry as it was. */
  lemma ReportRegisters(entries: map<MeasurementID, Measurement>, failures: nat, m: Measurement,
                        prefix: string, defaultLabels: seq<string>, extraLabels: seq<string>)
    ensures var r := ReportOf(entries, failures, m, prefix, defaultLabels, extraLabels);
      && r.entries.Keys == entries.Keys + {m.ID()}
      && r.entries[m.ID()] == (if m.ID() in entries then entries[m.ID()] else m)
      && forall k :: k in entries ==> r.entries[k] == entries[k]
  {
  }

  /** Reporting the same measurement again finds it known: the known
      measurements stay as the first report left them, the same thing is
      sent, and only a counted failure is counted again. */
  lemma ReportAgain(entries: map<MeasurementID, Measurement>, failures: nat, again: nat, m: Measurement,
                    prefix: string, defaultLabels: seq<string>, extraLabels: seq<string>)
    ensures var r1 := ReportOf(entries, failures, m, prefix, defaultLabels, extraLabels);
      var r2 := ReportOf(r1.entries, again, m, prefix, defaultLabels, extraLabels);
      && r2.entries == r1.entries && r2.emitted == r1.emitted && r2.err == r1.err
      && r2.failures == again + (if Counted(r1.err) then 1 else 0)
  {
    var r1 := ReportOf(entries, failures, m, prefix, defaultLabels, extraLabels);
    ReportRegisters(entries, failures, m, prefix, defaultLabels, extraLabels);
    assert m.ID() in r1.entries;
    ReportClassified(r1.entries, again, m, prefix, defaultLabels, extraLabels);
    ReportClassified(entries, failures, m, prefix, defaultLabels, extraLabels);
  }

  // ------------------------------------------------------ registering a measurement map

  /** newBasicCollector's measurement map: every supplied measurement is
      known under its own ID, and every known entry is one of them. */
  predicate Registered(supplied: map<MeasurementID, Measurement>, entries: map<MeasurementID, Measurement>) {
    && (forall k :: k in supplied ==> supplied[k].ID() in entries)
    && (forall id :: id in entries ==> entries[id].ID() == id && exists k :: k in supplied && supplied[k] == entries[id])
  }

  /** A supplied map that is already keyed by ID is registered as itself;
      registering is then independent of the iteration order. */
  lemma {:induction false} RegisteredKeyedMapIsCopied(supplied: map<MeasurementID, Measurement>, entries: map<MeasurementID, Measurement>)
    requires forall k :: k in supplied ==> supplied[k].ID() == k
    requires Registered(supplied, entries)
    ensures entries == supplied
  {
    forall id | id in entries ensures id in supplied && supplied[id] == entries[id] {
      var k :| k in supplied && supplied[k] == entries[id];
      assert k == id;
    }
    assert entries.Keys == supplied.Keys;
  }

  /** basicCollector. */
  class BasicCollector {
    const prefix: string
    const defaultLabels: seq<string>
    /** The known measurements, a map shared by reference. */
    const measurements: MeasurementMap
    var up: real
    var totalScrapes: nat
    var scrapeFailures: nat
    var measurementTransformationFailures: nat
    /** The metrics a collector reports each scrape. */
    var metrics: seq<PromMetric>

    /** newBasicCollector: zeroed gauge and counters, and every supplied
        measurement registered under its own ID. It never fails. */
    constructor (measurementMap: map<MeasurementID, Measurement>, defaultLabels: seq<string>, collectorPrefix: string)
      ensures prefix == collectorPrefix && this.defaultLabels == defaultLabels
      ensures up == 0.0 && totalScrapes == 0 && scrapeFailures == 0 && measurementTransformationFailures == 0
      ensures metrics == []
      ensures fresh(measurements)
      ensures Registered(measurementMap, measurements.entries)
    {
      prefix := collectorPrefix;
      this.defaultLabels := defaultLabels;
      up := 0.0;
      totalScrapes := 0;
      scrapeFailures := 0;
      measurementTransformationFailures := 0;
      metrics := [];
      measurements := new MeasurementMap();
      new;
      var remaining := measurementMap.Keys;
      while remaining != {}
        invariant remaining <= measurementMap.Keys
        invariant forall k :: k in measurementMap && k !in remaining ==> measurementMap[k].ID() in measurements.entries
        invariant forall id :: id in measurements.entries ==>
          measurements.entries[id].ID() == id && exists k :: k in measurementMap && measurementMap[k] == measurements.entries[id]
        modifies measurements
        decreases remaining
      {
        var k :| k in remaining;
        measurements.RegisterMeasurement(measurementMap[k]);
        remaining := remaining - {k};
      }
    }

    /** Describe: the four own descriptors, then the descriptor of every
        known measurement whose PromDesc succeeds, in map iteration order
        (the ghost `order`, a permutation of the known IDs). */
    method Describe() returns (descs: seq<Desc>, ghost order: seq<MeasurementID>)
      ensures descs == OwnDescs(prefix) + MeasurementDescs(order, measurements.entries, prefix, defaultLabels)
      ensures Distinct(order) && forall k :: k in order <==> k in measurements.entries
    {
      var sent;
      sent, order := FilterMapKeys(measurements.entries.Keys, DescOf(measurements.entries, prefix, defaultLabels));
      descs := OwnDescs(prefix) + sent;
    }

    /** reportMeasurement: registers an unknown measurement (a counted
        failure), then sends its gauge or returns why it could not. It panics
        when there are not as many extra label values as default labels. */
    method ReportMeasurement(m: Measurement, extraLabels: seq<string>) returns (err: Option<ReportError>, emitted: seq<Metric>)
      requires PromDesc(m, Namespace, prefix, defaultLabels).Ok? && PromValue(m.dataPoints, m.units).Ok?
               ==> |extraLabels| == |defaultLabels|
      modifies this, measurements
      ensures var r := ReportOf(old(measurements.entries), old(measurementTransformationFailures), m, prefix, defaultLabels, extraLabels);
        && measurements.entries == r.entries && measurementTransformationFailures == r.failures
        && emitted == r.emitted && err == r.err
      ensures up == old(up) && totalScrapes == old(totalScrapes) && scrapeFailures == old(scrapeFailures)
      ensures metrics == old(metrics)
    {
      if m.ID() !in measurements.entries {
        measurementTransformationFailures := measurementTransformationFailures + 1;
        measurements.RegisterMeasurement(m);
      }
      var desc := PromDesc(m, Namespace, prefix, defaultLabels);
      if desc.Err? {
        measurementTransformationFailures := measurementTransformationFailures + 1;
        return Some(DescFailure(m.name, desc.error)), [];
      }
      var value := PromValOf(m.dataPoints, m.units);
      if value.Err? {
        if value.error == NoDatapoints {
          return Some(NoData), [];
        }
        measurementTransformationFailures := measurementTransformationFailures + 1;
        return Some(ValueFailure(m.name, value.error)), [];
      }
      emitted := [MustNewConstMetric(desc.value, PromType(m), value.value, extraLabels)];
      err := None;
    }
  }

  // ------------------------------------------------------ samples by descriptor

  /** The samples sent under one descriptor, in order. */
  function WithDesc(es: seq<Metric>, d: Desc): seq<Metric> {
    if es == [] then []
    else WithDesc(es[..|es| - 1], d) + (if es[|es| - 1].desc == d then [es[|es| - 1]] else [])
  }

  /** Selecting by descriptor distributes over concatenation. */
  lemma {:induction false} WithDescConcat(xs: seq<Metric>, ys: seq<Metric>, d: Desc)
    ensures WithDesc(xs + ys, d) == WithDesc(xs, d) + WithDesc(ys, d)
    decreases |ys|
  {
    if ys == [] {
      assert xs + ys == xs;
    } else {
      WithDescConcat(xs, ys[..|ys| - 1], d);
      assert (xs + ys)[..|xs + ys| - 1] == xs + ys[..|ys| - 1];
    }
  }

  /** No sample is selected from a list that has none under the descriptor. */
  lemma {:induction false} WithDescNone(es: seq<Metric>, d: Desc)
    requires forall i :: 0 <= i < |es| ==> es[i].desc != d
    ensures WithDesc(es, d) == []
  {
    if es != [] {
      WithDescNone(es[..|es| - 1], d);
    }
  }

  /** A sample between lists with none under its descriptor is the only one
      selected. */
  lemma WithDescSingle(head: seq<Metric>, x: Metric, mid: seq<Metric>, tail: seq<Metric>, d: Desc)
    requires x.desc == d
    requires forall i :: 0 <= i < |head| ==> head[i].desc != d
    requires forall i :: 0 <= i < |mid| ==> mid[i].desc != d
    requires forall i :: 0 <= i < |tail| ==> tail[i].desc != d
    ensures WithDesc(head + [x] + mid + tail, d) == [x]
  {
    WithDescNone(head, d);
    WithDescNone(mid, d);
    WithDescNone(tail, d);
    assert [x][..0] == [];
    WithDescConcat(head, [x], d);
    WithDescConcat(head + [x], mid, d);
    WithDescConcat(head + [x] + mid, tail, d);
  }
}
