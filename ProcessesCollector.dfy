/** collector/processes.go: the collector of every process's metrics. Each
    scrape hands each (process, metric) pair to `report`, then sends one info
    gauge for the process. */
module ProcessesCollector {
  import opened Wrappers
  import opened Collections
  import opened HttpErrors
  import opened Prom
  import opened Measurements
  import opened BaseMeasurer
  import opened CollectorCommon

  const ProcessesPrefix: string := "processes_stats"
  const InfoHelp: string := "Process info metric"

  /** The descriptor of the info gauge vector, over the given label names. */
  function InfoDesc(infoLabelNames: seq<string>): Desc {
    Desc(BuildFQName(Namespace, ProcessesPrefix, "info"), InfoHelp, infoLabelNames, map[])
  }

  /** The info gauge's label values for a process: project ID, replica set,
      alias, version and type name, in that order. */
  function AllLabelValues(pm: ProcessMeasurements): seq<string> {
    [pm.projectID, pm.rsName, pm.userAlias, pm.version, pm.typeName]
  }

  /** The info gauge sent for a process, set to 1. */
  function InfoSample(info: Desc, pm: ProcessMeasurements): Metric {
    Metric(info, GaugeValue, 1.0, AllLabelValues(pm))
  }

  /** What `report` sends for one metric of a process. */
  function ReportFor(report: (ProcessMeasurements, PromMetric) -> Reported, pm: ProcessMeasurements): PromMetric -> seq<Metric> {
    metric => report(pm, metric).sent
  }

  /** The transformation failures `report` counts for one metric of a process. */
  function FailuresFor(report: (ProcessMeasurements, PromMetric) -> Reported, pm: ProcessMeasurements): PromMetric -> nat {
    metric => report(pm, metric).failures
  }

  /** The transformation failures `report` counts for one process's metrics. */
  function ProcessFailures(metrics: seq<PromMetric>, report: (ProcessMeasurements, PromMetric) -> Reported): ProcessMeasurements -> nat {
    pm => SumOf(metrics, FailuresFor(report, pm))
  }

  /** The transformation failures a scrape counts: those of every
      (process, metric) call of `report`. */
  function ReportedFailures(pms: seq<ProcessMeasurements>, metrics: seq<PromMetric>,
                            report: (ProcessMeasurements, PromMetric) -> Reported): nat {
    SumOf(pms, ProcessFailures(metrics, report))
  }

  /** What one process contributes to a scrape: `report`'s samples for each
      metric, in metric order, then the process's info gauge. */
  function ProcessBlock(metrics: seq<PromMetric>, report: (ProcessMeasurements, PromMetric) -> Reported,
                        info: Desc): ProcessMeasurements -> seq<Metric> {
    pm => FlatMap(metrics, ReportFor(report, pm)) + [InfoSample(info, pm)]
  }

  /** The samples a scrape sends before the bookkeeping, process by process. */
  function ProcessEmissions(pms: seq<ProcessMeasurements>, metrics: seq<PromMetric>,
                            report: (ProcessMeasurements, PromMetric) -> Reported, info: Desc): seq<Metric> {
    FlatMap(pms, ProcessBlock(metrics, report, info))
  }

  /** The info gauges of the processes, one each, in order. */
  function InfoSamples(pms: seq<ProcessMeasurements>, info: Desc): seq<Metric> {
    FlatMap(pms, pm => [InfoSample(info, pm)])
  }

  /** Processes: the shared bookkeeping and the info gauge vector. */
  class Processes {
    const basic: BasicCollector
    const info: Desc

    constructor (basic: BasicCollector, info: Desc)
      ensures this.basic == basic && this.info == info
    {
      this.basic := basic;
      this.info := info;
    }

    /** Processes.Collect, for the client's answer (the processes'
        measurements, the number of failed scrapes and an error that changes
        nothing) and the opaque `report`: one more scrape, `up` 1, the failed
        scrapes added, then each process's reported samples and info gauge,
        then `up`, the scrape count and the failure count. The transformation
        failures grow by those `report` counts. The info gauge vector panics
        when its label names are not five. */
    method Collect(pms: seq<ProcessMeasurements>, failedScrapes: nat, err: Option<Failure>,
                   report: (ProcessMeasurements, PromMetric) -> Reported) returns (emitted: seq<Metric>)
      requires |pms| > 0 ==> |info.variableLabels| == |AllLabelValues(pms[0])|
      modifies basic
      ensures basic.totalScrapes == old(basic.totalScrapes) + 1
      ensures basic.up == 1.0
      ensures basic.scrapeFailures == old(basic.scrapeFailures) + failedScrapes
      ensures basic.measurementTransformationFailures ==
        old(basic.measurementTransformationFailures) + ReportedFailures(pms, basic.metrics, report)
      ensures basic.metrics == old(basic.metrics)
      ensures emitted == ProcessEmissions(pms, basic.metrics, report, info) + [
        GaugeSample(UpDesc(basic.prefix), basic.up),
        CounterSample(TotalScrapesDesc(basic.prefix), basic.totalScrapes),
        CounterSample(ScrapeFailuresDesc(basic.prefix), basic.scrapeFailures)]
    {
      basic.totalScrapes := basic.totalScrapes + 1;
      if err.Some? {
        basic.up := 0.0;
      }
      basic.up := 1.0;
      basic.scrapeFailures := basic.scrapeFailures + failedScrapes;
      var metrics := basic.metrics;
      var failures;
      emitted, failures := ReportProcesses(pms, metrics, report, info);
      basic.measurementTransformationFailures := basic.measurementTransformationFailures + failures;
      emitted := emitted + [
        GaugeSample(UpDesc(basic.prefix), basic.up),
        CounterSample(TotalScrapesDesc(basic.prefix), basic.totalScrapes),
        CounterSample(ScrapeFailuresDesc(basic.prefix), basic.scrapeFailures)];
    }

    /** Processes.Describe: the shared descriptors, then the info gauge
        vector's. */
    method Describe() returns (descs: seq<Desc>, ghost order: seq<MeasurementID>)
      ensures descs == OwnDescs(basic.prefix) + MeasurementDescs(order, basic.measurements.entries, basic.prefix, basic.defaultLabels) + [info]
      ensures Distinct(order) && forall k :: k in order <==> k in basic.measurements.entries
    {
      var shared;
      shared, order := basic.Describe();
      descs := shared + [info];
    }
  }

  /** Collect's loop over the processes: each process's block, in order,
      and the transformation failures `report` counts. */
  method ReportProcesses(pms: seq<ProcessMeasurements>, metrics: seq<PromMetric>,
                         report: (ProcessMeasurements, PromMetric) -> Reported, info: Desc)
    returns (emitted: seq<Metric>, failures: nat)
    requires |pms| > 0 ==> |info.variableLabels| == |AllLabelValues(pms[0])|
    ensures emitted == ProcessEmissions(pms, metrics, report, info)
    ensures failures == ReportedFailures(pms, metrics, report)
  {
    emitted, failures := [], 0;
    var i := 0;
    while i < |pms|
      invariant 0 <= i <= |pms|
      invariant emitted == FlatMap(pms[..i], ProcessBlock(metrics, report, info))
      invariant failures == SumOf(pms[..i], ProcessFailures(metrics, report))
    {
      var block, counted := ReportProcess(pms[i], metrics, report, info);
      emitted, failures := emitted + block, failures + counted;
      FlatMapPrefixStep(pms, i, ProcessBlock(metrics, report, info), ProcessFailures(metrics, report));
      i := i + 1;
    }
    assert pms[..i] == pms;
  }

  /** Collect's inner loop for one process: `report` for each metric, in
      order, then the process's info gauge; and the failures `report`
      counts. */
  method ReportProcess(pm: ProcessMeasurements, metrics: seq<PromMetric>,
                       report: (ProcessMeasurements, PromMetric) -> Reported, info: Desc)
    returns (block: seq<Metric>, failures: nat)
    requires |info.variableLabels| == |AllLabelValues(pm)|
    ensures block == ProcessBlock(metrics, report, info)(pm)
    ensures failures == ProcessFailures(metrics, report)(pm)
  {
    block, failures := [], 0;
    var j := 0;
    while j < |metrics|
      invariant 0 <= j <= |metrics|
      invariant block == FlatMap(metrics[..j], ReportFor(report, pm))
      invariant failures == SumOf(metrics[..j], FailuresFor(report, pm))
    {
      FlatMapPrefixStep(metrics, j, ReportFor(report, pm), FailuresFor(report, pm));
      var reported := report(pm, metrics[j]);
      block, failures := block + reported.sent, failures + reported.failures;
      j := j + 1;
    }
    assert metrics[..j] == metrics;
    block := block + [MustNewConstMetric(info, GaugeValue, 1.0, AllLabelValues(pm))];
  }

  /** NewProcesses: the metadata client error, unchanged, or a collector over
      the metadata with prefix "processes_stats" and an info gauge vector over
      the given label names. Its metrics are `newMetrics` of the metadata: the
      version of newBasicCollector that builds them is not shown, so what it
      computes is a parameter. */
  method NewProcesses(metadata: Result<map<MeasurementID, Measurement>, Failure>, defaultLabels: seq<string>,
                      infoLabelNames: seq<string>, newMetrics: map<MeasurementID, Measurement> -> seq<PromMetric>)
    returns (r: Result<Processes, Failure>)
    ensures r.Err? <==> metadata.Err?
    ensures r.Err? ==> r.error == metadata.error
    ensures r.Ok? ==> && fresh(r.value) && fresh(r.value.basic) && fresh(r.value.basic.measurements)
                      && r.value.basic.prefix == ProcessesPrefix && r.value.basic.defaultLabels == defaultLabels
                      && r.value.basic.totalScrapes == 0 && r.value.basic.scrapeFailures == 0
                      && r.value.basic.measurementTransformationFailures == 0
                      && r.value.basic.metrics == newMetrics(metadata.value)
                      && Registered(metadata.value, r.value.basic.measurements.entries)
                      && r.value.info == InfoDesc(infoLabelNames)
  {
    if metadata.Err? {
      return Err(metadata.error);
    }
    var basic := new BasicCollector(metadata.value, defaultLabels, ProcessesPrefix);
    basic.metrics := newMetrics(metadata.value);
    var info := Desc(BuildFQName(Namespace, ProcessesPrefix, "info"), InfoHelp, infoLabelNames, map[]);
    var processes := new Processes(basic, info);
    return Ok(processes);
  }

  // ------------------------------------------------------------ one scrape

  /** `report` never sends a sample under the given descriptor. */
  ghost predicate NeverSends(report: (ProcessMeasurements, PromMetric) -> Reported, d: Desc) {
    forall pm, metric, e :: e in report(pm, metric).sent ==> e.desc != d
  }

  /** A sample is sent exactly when it is some process's info gauge or
      `report` sends it for some (process, metric) pair: every pair is
      reported, whatever the other pairs do. */
  lemma ProcessEmissionsExactly(pms: seq<ProcessMeasurements>, metrics: seq<PromMetric>,
                                report: (ProcessMeasurements, PromMetric) -> Reported, info: Desc, e: Metric)
    ensures e in ProcessEmissions(pms, metrics, report, info) <==>
      exists i :: 0 <= i < |pms| &&
        (e == InfoSample(info, pms[i]) || exists j :: 0 <= j < |metrics| && e in report(pms[i], metrics[j]).sent)
  {
    FlatMapMembers(pms, ProcessBlock(metrics, report, info), e);
    forall i | 0 <= i < |pms|
      ensures e in ProcessBlock(metrics, report, info)(pms[i]) <==>
        (e == InfoSample(info, pms[i]) || exists j :: 0 <= j < |metrics| && e in report(pms[i], metrics[j]).sent)
    {
      FlatMapMembers(metrics, ReportFor(report, pms[i]), e);
    }
  }

  /** A scrape counts no transformation failure exactly when no
      (process, metric) call of `report` counts one. */
  lemma NoFailuresExactly(pms: seq<ProcessMeasurements>, metrics: seq<PromMetric>,
                          report: (ProcessMeasurements, PromMetric) -> Reported)
    ensures ReportedFailures(pms, metrics, report) == 0 <==>
      forall i, j :: 0 <= i < |pms| && 0 <= j < |metrics| ==> report(pms[i], metrics[j]).failures == 0
  {
    SumOfZero(pms, ProcessFailures(metrics, report));
    forall i | 0 <= i < |pms|
      ensures ProcessFailures(metrics, report)(pms[i]) == 0 <==>
        forall j :: 0 <= j < |metrics| ==> report(pms[i], metrics[j]).failures == 0
    {
      SumOfZero(metrics, FailuresFor(report, pms[i]));
    }
  }

  /** When `report` never uses the info descriptor, the samples under it are
      exactly one info gauge per process, in process order. */
  lemma {:induction false} OneInfoPerProcess(pms: seq<ProcessMeasurements>, metrics: seq<PromMetric>,
                                              report: (ProcessMeasurements, PromMetric) -> Reported, info: Desc)
    requires NeverSends(report, info)
    ensures WithDesc(ProcessEmissions(pms, metrics, report, info), info) == InfoSamples(pms, info)
  {
    if pms != [] {
      var init, pm := pms[..|pms| - 1], pms[|pms| - 1];
      OneInfoPerProcess(init, metrics, report, info);
      var reported := FlatMap(metrics, ReportFor(report, pm));
      forall k | 0 <= k < |reported|
        ensures reported[k].desc != info
      {
        FlatMapMembers(metrics, ReportFor(report, pm), reported[k]);
      }
      WithDescNone(reported, info);
      WithDescConcat(reported, [InfoSample(info, pm)], info);
      assert [InfoSample(info, pm)][..0] == [];
      WithDescConcat(ProcessEmissions(init, metrics, report, info), ProcessBlock(metrics, report, info)(pm), info);
    }
  }
}
