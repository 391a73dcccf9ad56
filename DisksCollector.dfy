/** collector/disks.go: the collector of every disk partition's metrics.
    Each scrape crosses the disks the client returns with the collector's
    metrics: each pair either sends one gauge or counts one transformation
    failure. */
module DisksCollector {
  import opened Wrappers
  import opened Collections
  import opened HttpErrors
  import opened Prom
  import opened Values
  import opened Measurements
  import opened BaseMeasurer
  import opened CollectorCommon

  const DefaultDiskLabels: seq<string> := ["project_id", "rs_name", "user_alias", "partition_name"]
  const DisksPrefix: string := "disks_stats"
  const InitFailureMessage: string := "can't initialize disk metrics"

  /** Disks: a collector with nothing beyond the shared bookkeeping. */
  class Disks {
    const basic: BasicCollector

    constructor (basic: BasicCollector)
      ensures this.basic == basic
    {
      this.basic := basic;
    }

    /** Disks.Collect, for the client's answer (the disks' measurements, the
        number of failed scrapes and an error that changes nothing): one
        more scrape, `up` 1, the failed scrapes added, then for each disk and
        each metric a gauge labelled with the disk's identity or a counted
        failure, then the gauge and the three counters. A gauge whose
        descriptor does not take the four label values panics. */
    method Collect(disks: seq<DiskMeasurements>, failedScrapes: nat, err: Option<GoError>) returns (emitted: seq<Metric>)
      requires forall i, j :: 0 <= i < |disks| && 0 <= j < |basic.metrics| && DiskValue(disks[i], basic.metrics[j]).Some?
                 ==> |basic.metrics[j].desc.variableLabels| == |DefaultDiskLabels|
      modifies basic
      ensures basic.totalScrapes == old(basic.totalScrapes) + 1
      ensures basic.up == 1.0
      ensures basic.scrapeFailures == old(basic.scrapeFailures) + failedScrapes
      ensures basic.measurementTransformationFailures ==
              old(basic.measurementTransformationFailures) + DiskFailures(disks, basic.metrics)
      ensures basic.metrics == old(basic.metrics)
      ensures emitted == DiskEmissions(disks, basic.metrics) + [
        GaugeSample(UpDesc(basic.prefix), basic.up),
        CounterSample(TotalScrapesDesc(basic.prefix), basic.totalScrapes),
        CounterSample(ScrapeFailuresDesc(basic.prefix), basic.scrapeFailures),
        CounterSample(TransformationFailuresDesc(basic.prefix), basic.measurementTransformationFailures)]
    {
      basic.totalScrapes := basic.totalScrapes + 1;
      if err.Some? {
        basic.up := 0.0;
      }
      basic.up := 1.0;
      basic.scrapeFailures := basic.scrapeFailures + failedScrapes;
      var metrics := basic.metrics;
      var failures;
      emitted, failures := TransformRows(disks, metrics);
      basic.measurementTransformationFailures := basic.measurementTransformationFailures + failures;
      emitted := emitted + [
        GaugeSample(UpDesc(basic.prefix), basic.up),
        CounterSample(TotalScrapesDesc(basic.prefix), basic.totalScrapes),
        CounterSample(ScrapeFailuresDesc(basic.prefix), basic.scrapeFailures),
        CounterSample(TransformationFailuresDesc(basic.prefix), basic.measurementTransformationFailures)];
    }
  }

  /** Collect's loop over the disks: each disk's row, disk by disk, and the
      failures of all the rows. */
  method TransformRows(disks: seq<DiskMeasurements>, metrics: seq<PromMetric>) returns (emitted: seq<Metric>, failures: nat)
    requires forall i, j :: 0 <= i < |disks| && 0 <= j < |metrics| && DiskValue(disks[i], metrics[j]).Some?
               ==> |metrics[j].desc.variableLabels| == |DefaultDiskLabels|
    ensures emitted == DiskEmissions(disks, metrics) && failures == DiskFailures(disks, metrics)
  {
    failures := 0;
    emitted := [];
    var i := 0;
    while i < |disks|
      invariant 0 <= i <= |disks|
      invariant failures == SumOf(disks[..i], FailuresOf(metrics))
      invariant emitted == FlatMap(disks[..i], RowOf(metrics))
    {
      var row, rowFailures := TransformRow(disks[i], metrics);
      FlatMapPrefixStep(disks, i, RowOf(metrics), FailuresOf(metrics));
      failures := failures + rowFailures;
      emitted := emitted + row;
      i := i + 1;
    }
    assert disks[..i] == disks;
  }

  /** Collect's inner loop for one disk: the gauges sent, in metric order,
      and the number of pairs that send nothing. */
  method TransformRow(d: DiskMeasurements, metrics: seq<PromMetric>) returns (row: seq<Metric>, failures: nat)
    requires forall j :: 0 <= j < |metrics| && DiskValue(d, metrics[j]).Some?
               ==> |metrics[j].desc.variableLabels| == |DefaultDiskLabels|
    ensures row == DiskRow(d, metrics) && failures == RowFailures(d, metrics)
  {
    row := [];
    failures := 0;
    var j := 0;
    while j < |metrics|
      invariant 0 <= j <= |metrics|
      invariant failures == CountNone(metrics[..j], DiskSample(d))
      invariant row == FilterMap(metrics[..j], DiskSample(d))
    {
      FilterMapPrefixStep(metrics, j, DiskSample(d));
      var sample := TransformPair(d, metrics[j]);
      if sample.None? {
        failures := failures + 1;
      } else {
        row := row + [sample.value];
      }
      j := j + 1;
    }
    assert metrics[..j] == metrics;
  }

  /** The body of Collect's inner loop for one (disk, metric) pair: a
      missing measurement or a value that does not transform yields nothing
      (Collect counts it), otherwise the gauge for the disk. */
  method TransformPair(d: DiskMeasurements, metric: PromMetric) returns (sample: Option<Metric>)
    requires DiskValue(d, metric).Some? ==> |metric.desc.variableLabels| == |DefaultDiskLabels|
    ensures sample == DiskSample(d)(metric)
  {
    var id := metric.metadata.ID();
    if id !in d.measurements {
      return None;
    }
    var measurement := d.measurements[id];
    var value := PromValOf(measurement.dataPoints, measurement.units);
    if value.Err? {
      return None;
    }
    return Some(MustNewConstMetric(metric.desc, metric.valueType, value.value, DiskLabelValues(d)));
  }

  /** NewDisks: a collector over the disk metadata the client returns, or
      the fixed initialisation error when the client fails. Its metrics are
      `newMetrics` of the metadata: the version of newBasicCollector that
      builds them is not shown, so what it computes is a parameter. */
  method NewDisks(metadata: Result<map<MeasurementID, Measurement>, Failure>,
                  newMetrics: map<MeasurementID, Measurement> -> seq<PromMetric>) returns (r: Result<Disks, GoError>)
    ensures r.Err? <==> metadata.Err?
    ensures r.Err? ==> r.error == GoError(InitFailureMessage)
    ensures r.Ok? ==> && fresh(r.value) && fresh(r.value.basic) && fresh(r.value.basic.measurements)
                      && r.value.basic.prefix == DisksPrefix && r.value.basic.defaultLabels == DefaultDiskLabels
                      && r.value.basic.totalScrapes == 0 && r.value.basic.scrapeFailures == 0
                      && r.value.basic.measurementTransformationFailures == 0
                      && r.value.basic.metrics == newMetrics(metadata.value)
                      && Registered(metadata.value, r.value.basic.measurements.entries)
  {
    if metadata.Err? {
      return Err(GoError(InitFailureMessage));
    }
    var basic := new BasicCollector(metadata.value, DefaultDiskLabels, DisksPrefix);
    basic.metrics := newMetrics(metadata.value);
    var disks := new Disks(basic);
    return Ok(disks);
  }

  // ------------------------------------------------------------ one scrape

  /** The label values of a disk's gauges, in the order of the default labels. */
  function DiskLabelValues(d: DiskMeasurements): seq<string> {
    [d.projectID, d.rsName, d.userAlias, d.partitionName]
  }

  /** The value of a metric on a disk: the disk's measurement under the
      metric's ID, transformed; nothing when it is missing or does not
      transform, missing data included. */
  function DiskValue(d: DiskMeasurements, metric: PromMetric): Option<real> {
    var id := metric.metadata.ID();
    if id in d.measurements then PromValue(d.measurements[id].dataPoints, d.measurements[id].units).ToOption()
    else None
  }

  /** What one (disk, metric) pair sends. */
  function DiskSample(d: DiskMeasurements): PromMetric -> Option<Metric> {
    metric => match DiskValue(d, metric)
              case Some(v) => Some(Metric(metric.desc, metric.valueType, v, DiskLabelValues(d)))
              case None => None
  }

  /** The gauges sent for one disk, in metric order. */
  function DiskRow(d: DiskMeasurements, metrics: seq<PromMetric>): seq<Metric> {
    FilterMap(metrics, DiskSample(d))
  }

  /** The failures counted for one disk. */
  function RowFailures(d: DiskMeasurements, metrics: seq<PromMetric>): nat {
    CountNone(metrics, DiskSample(d))
  }

  function RowOf(metrics: seq<PromMetric>): DiskMeasurements -> seq<Metric> {
    d => DiskRow(d, metrics)
  }

  function FailuresOf(metrics: seq<PromMetric>): DiskMeasurements -> nat {
    d => RowFailures(d, metrics)
  }

  /** The gauges sent for the disks, disk by disk. */
  function DiskEmissions(disks: seq<DiskMeasurements>, metrics: seq<PromMetric>): seq<Metric> {
    FlatMap(disks, RowOf(metrics))
  }

  /** The failures counted for the disks. */
  function DiskFailures(disks: seq<DiskMeasurements>, metrics: seq<PromMetric>): nat {
    SumOf(disks, FailuresOf(metrics))
  }

  /** Every (disk, metric) pair does exactly one of the two: the gauges sent
      and the failures counted add up to the number of pairs. */
  lemma DiskAccounting(disks: seq<DiskMeasurements>, metrics: seq<PromMetric>)
    ensures |DiskEmissions(disks, metrics)| + DiskFailures(disks, metrics) == |metrics| * |disks|
  {
    forall i | 0 <= i < |disks|
      ensures |RowOf(metrics)(disks[i])| + FailuresOf(metrics)(disks[i]) == |metrics|
    {
      FilterMapMembers(metrics, DiskSample(disks[i]));
    }
    FlatMapAccounting(disks, RowOf(metrics), FailuresOf(metrics), |metrics|);
  }

  /** A gauge is sent exactly for the pairs whose metric has a measurement on
      the disk that transforms, with the metric's descriptor and type, the
      transformed value and the disk's four label values. */
  lemma DiskEmissionsExactly(disks: seq<DiskMeasurements>, metrics: seq<PromMetric>, e: Metric)
    ensures e in DiskEmissions(disks, metrics) <==>
      exists i, j :: 0 <= i < |disks| && 0 <= j < |metrics| && DiskSample(disks[i])(metrics[j]) == Some(e)
  {
    FlatMapMembers(disks, RowOf(metrics), e);
    forall i | 0 <= i < |disks|
      ensures e in RowOf(metrics)(disks[i]) <==> exists j :: 0 <= j < |metrics| && DiskSample(disks[i])(metrics[j]) == Some(e)
    {
      FilterMapMembers(metrics, DiskSample(disks[i]));
    }
  }

  /** One pair's sample: the metric's descriptor and type, the transformed
      value and the disk's four label values, exactly when the disk has the
      metric's measurement and its value transforms. */
  lemma DiskSampleShape(d: DiskMeasurements, metric: PromMetric)
    ensures DiskSample(d)(metric).Some? <==>
      metric.metadata.ID() in d.measurements
      && PromValue(d.measurements[metric.metadata.ID()].dataPoints, d.measurements[metric.metadata.ID()].units).Ok?
    ensures DiskSample(d)(metric).Some? ==>
      (DiskSample(d)(metric).value ==
       Metric(metric.desc, metric.valueType,
              PromValue(d.measurements[metric.metadata.ID()].dataPoints, d.measurements[metric.metadata.ID()].units).value,
              [d.projectID, d.rsName, d.userAlias, d.partitionName]))
  {
  }

  /** Unlike reportMeasurement, a disk metric whose measurement has no
      samples counts as a failure. */
  lemma NoDataCountsAsFailure(d: DiskMeasurements, metric: PromMetric)
    requires metric.metadata.ID() in d.measurements && d.measurements[metric.metadata.ID()].dataPoints == []
    ensures DiskSample(d)(metric) == None
    ensures DiskFailures([d], [metric]) == 1
  {
    var m := d.measurements[metric.metadata.ID()];
    assert PromValue(m.dataPoints, m.units) == Err(NoDatapoints);
    assert DiskSample(d)(metric) == None;
    assert [metric][..0] == [];
    assert CountNone([metric], DiskSample(d)) == CountNone([metric][..0], DiskSample(d)) + 1;
    assert CountNone([metric][..0], DiskSample(d)) == 0;
    assert FailuresOf([metric])(d) == 1;
    assert SumOf([d], FailuresOf([metric])) == SumOf([d][..0], FailuresOf([metric])) + 1;
    assert SumOf([d][..0], FailuresOf([metric])) == 0;
  }
}
