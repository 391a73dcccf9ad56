/** collector/process.go: the collector of one Atlas process. Construction
    attaches the process's disks and metadata to its measurer and adds each
    disk metric once; each scrape refreshes the measurer's measurements and
    hands the measurer and each disk to `report`. */
module ProcessCollector {
  import opened Wrappers
  import opened Collections
  import opened HttpErrors
  import opened Prom
  import opened Measurements
  import opened Atlas
  import opened BaseMeasurer
  import opened DiskMeasurer
  import opened ProcessMeasurer
  import opened AtlasClient
  import opened CollectorCommon
  import opened DisksCollector
  import opened ProcessesCollector

  /** What `report` is handed: the process's measurer or one of its disks. */
  datatype MeasurerRef = OfProcess(process: Process) | OfDisk(disk: Disk)

  /** `report`, which is not shown: for a measurer and a metric, or for a
      measurer and a missing metric, the samples it sends and the
      transformation failures it counts. */
  type Reporter = (MeasurerRef, Option<PromMetric>) -> Reported

  // ------------------------------------------------------------ construction

  /** A listed disk as construction leaves it: the process's base and the
      partition name, with the metadata of the disk's measurements when that
      call answers with some, and no metadata when it fails. */
  function InitialDisk(c: AtlasClient, q: Process, p: AtlasProcess, ad: AtlasDisk): Disk
    requires Splittable(p)
  {
    var d := DiskFromMongodbAtlasProcessDisk(p, ad);
    var response := DiskResponse(c, q, d);
    if response.Ok? && |response.value| > 0 then d.(base := d.base.(metadata := MetadataMap(response.value))) else d
  }

  /** The disk metric for a metadata key, when the metadata has the key and
      it converts. */
  function MetricOption(metadata: map<MeasurementID, MeasurementMetadata>, variableLabels: seq<string>,
                        constLabels: Labels): MeasurementID -> Option<PromMetric> {
    k => if k in metadata then MetadataToMetric(metadata[k], Namespace, DisksPrefix, DEFAULT_HELP, variableLabels, constLabels).ToOption()
         else None
  }

  /** A disk's metadata keys. */
  function MetadataKeys(d: Disk): set<MeasurementID> {
    d.base.metadata.Keys
  }

  /** The metadata keys of all the disks. */
  function MetadataKeysOf(disks: seq<Disk>): set<MeasurementID> {
    UnionOf(disks, MetadataKeys)
  }

  /** The disk part of NewProcessCollector: one disk per listed disk, in order,
      each with its metadata when the metadata call succeeds. */
  method AttachDisks(c: AtlasClient, q: Process, p: AtlasProcess, listed: seq<AtlasDisk>) returns (q': Process)
    requires |listed| > 0 ==> Splittable(p)
    ensures q' == q.(disks := q'.disks)
    ensures |q'.disks| == |listed|
    ensures forall k :: 0 <= k < |listed| ==> q'.disks[k] == InitialDisk(c, q, p, listed[k])
  {
    q' := q.(disks := []);
    var i := 0;
    while i < |listed|
      invariant 0 <= i <= |listed|
      invariant q' == q.(disks := q'.disks) && |q'.disks| == i
      invariant forall k :: 0 <= k < i ==> q'.disks[k] == InitialDisk(c, q, p, listed[k])
    {
      var disk := DiskFromMongodbAtlasProcessDisk(p, listed[i]);
      var diskMetadata := GetDiskMeasurementsMetadata(c, q', disk);
      if diskMetadata.Ok? {
        disk := disk.(base := disk.base.(metadata := diskMetadata.value));
      }
      q' := q'.(disks := q'.disks + [disk]);
      i := i + 1;
    }
  }

  /** The disk-metric pass of NewProcessCollector: every metadata key of
      every disk is considered once, in disk order and in an unspecified
      order within a disk (the ghost `keys`), through one seen-set; a key of
      the process's metadata that converts adds one metric. Every disk's
      variable label names are its base's, which are none. */
  method DedupDiskMetrics(q: Process) returns (metrics: seq<PromMetric>, ghost keys: seq<MeasurementID>)
    ensures metrics == FilterMap(keys, MetricOption(q.base.metadata, [], PromConstLabels(q.base)))
    ensures Distinct(keys) && forall k :: k in keys <==> k in MetadataKeysOf(q.disks)
  {
    var constLabels := PromConstLabels(q.base);
    metrics, keys := FilterMapUnseenAcross(q.disks, MetadataKeys, MetricOption(q.base.metadata, [], constLabels));
  }

  /** The disk metrics are exactly the metrics of the keys some disk's
      metadata has (MetricOptionSome says which metric a key has). */
  lemma DiskMetricsExactly(disks: seq<Disk>, metadata: map<MeasurementID, MeasurementMetadata>, constLabels: Labels,
                           keys: seq<MeasurementID>, m: PromMetric)
    requires forall k :: k in keys <==> k in MetadataKeysOf(disks)
    ensures m in FilterMap(keys, MetricOption(metadata, [], constLabels)) <==>
      exists i, k :: 0 <= i < |disks| && k in disks[i].base.metadata && MetricOption(metadata, [], constLabels)(k) == Some(m)
  {
    var f := MetricOption(metadata, [], constLabels);
    FilterMapOverSet(keys, MetadataKeysOf(disks), f, m);
    if m in FilterMap(keys, f) {
      var k :| k in MetadataKeysOf(disks) && f(k) == Some(m);
      UnionOfMembers(disks, MetadataKeys, k);
    }
    if exists i, k :: 0 <= i < |disks| && k in disks[i].base.metadata && f(k) == Some(m) {
      var i, k :| 0 <= i < |disks| && k in disks[i].base.metadata && f(k) == Some(m);
      UnionOfMembers(disks, MetadataKeys, k);
    }
  }

  /** A key's metric is there exactly when the key's metadata converts to it. */
  lemma MetricOptionSome(metadata: map<MeasurementID, MeasurementMetadata>, variableLabels: seq<string>,
                         constLabels: Labels, k: MeasurementID, m: PromMetric)
    ensures MetricOption(metadata, variableLabels, constLabels)(k) == Some(m) <==>
      k in metadata && MetadataToMetric(metadata[k], Namespace, DisksPrefix, DEFAULT_HELP, variableLabels, constLabels) == Ok(m)
  {
  }

  /** When every metadata entry sits under its own ID (as the client builds
      the map), no two disk metrics share a measurement ID. */
  lemma DiskMetricsOncePerID(metadata: map<MeasurementID, MeasurementMetadata>, constLabels: Labels, keys: seq<MeasurementID>)
    requires Distinct(keys)
    requires forall k :: k in metadata ==> metadata[k].ID() == k
    ensures var ms := FilterMap(keys, MetricOption(metadata, [], constLabels));
      forall i, j :: 0 <= i < j < |ms| ==> ms[i].metadata.ID() != ms[j].metadata.ID()
  {
    var f := MetricOption(metadata, [], constLabels);
    forall i | 0 <= i < |keys| && f(keys[i]).Some?
      ensures MetricKey(f(keys[i]).value) == keys[i]
    {
      var k := keys[i];
      var md := metadata[k];
      assert MetadataToMetric(md, Namespace, DisksPrefix, DEFAULT_HELP, [], constLabels).value.metadata == md;
    }
    FilterMapDistinctKeys(keys, f, MetricKey);
  }

  function MetricKey(m: PromMetric): MeasurementID {
    m.metadata.ID()
  }

  // -------------------------------------------------------------- one scrape

  /** The measurer after the process fetch: the fetched measurements, or
      none when the fetch fails. */
  function FetchedProcess(c: AtlasClient, m: Process): Process {
    var response := ProcessResponse(c, m);
    m.(base := m.base.(measurements := if response.Ok? then MeasurementsToMap(response.value) else map[]))
  }

  /** A disk after its fetch: the fetched measurements, or unchanged when the
      fetch fails. */
  function FetchedDisk(c: AtlasClient, m: Process, d: Disk): (r: Disk)
    ensures r == d.(base := r.base) && r.base == d.base.(measurements := r.base.measurements)
  {
    var response := DiskResponse(c, m, d);
    if response.Err? then d else d.(base := d.base.(measurements := MeasurementsToMap(response.value)))
  }

  function FetchDiskOf(c: AtlasClient, m: Process): Disk -> Disk {
    (d: Disk) => FetchedDisk(c, m, d)
  }

  /** 1 for a disk of the process on the given host and port whose fetch fails. */
  function DiskFetchFailure(c: AtlasClient, hostname: string, port: int): Disk -> nat {
    (d: Disk) => if c.api.processDiskMeasurements(c.projectID, hostname, port, d.partitionName).Err? then 1 else 0
  }

  /** The scrape failures one scrape counts: the failed process fetch and
      each failed disk fetch. */
  function FetchFailures(c: AtlasClient, m: Process): nat {
    (if ProcessResponse(c, m).Err? then 1 else 0) + SumOf(m.disks, DiskFetchFailure(c, m.base.hostname, m.port))
  }

  /** What `report` sends for one of the process's metrics. */
  function ProcessRowOf(report: Reporter, m: Process): PromMetric -> seq<Metric> {
    metric => report(OfProcess(m), Some(metric)).sent
  }

  /** The transformation failures `report` counts for one of the process's metrics. */
  function ProcessRowFailures(report: Reporter, m: Process): PromMetric -> nat {
    metric => report(OfProcess(m), Some(metric)).failures
  }

  /** What `report` sends for one metadata key of a disk: the disk and the
      key's converted metric, or no metric when it does not convert. */
  function DiskRowOf(report: Reporter, d: Disk, constLabels: Labels): MeasurementID -> seq<Metric> {
    k => report(OfDisk(d), MetricOption(d.base.metadata, [], constLabels)(k)).sent
  }

  /** The transformation failures `report` counts for one metadata key of a disk. */
  function DiskRowFailures(report: Reporter, d: Disk, constLabels: Labels): MeasurementID -> nat {
    k => report(OfDisk(d), MetricOption(d.base.metadata, [], constLabels)(k)).failures
  }

  /** What one disk visit sends: the disk's keys in the visit's order. */
  function DiskVisit(c: AtlasClient, m: Process, report: Reporter): ((Disk, seq<MeasurementID>)) -> seq<Metric> {
    (v: (Disk, seq<MeasurementID>)) => FlatMap(v.1, DiskRowOf(report, FetchedDisk(c, m, v.0), PromConstLabels(m.base)))
  }

  /** What the disk loop sends, disk by disk. */
  function DisksReports(c: AtlasClient, m: Process, report: Reporter, visits: seq<(Disk, seq<MeasurementID>)>): seq<Metric> {
    FlatMap(visits, DiskVisit(c, m, report))
  }

  /** The transformation failures one disk visit counts. */
  function DiskVisitFailures(c: AtlasClient, m: Process, report: Reporter): ((Disk, seq<MeasurementID>)) -> nat {
    (v: (Disk, seq<MeasurementID>)) => SumOf(v.1, DiskRowFailures(report, FetchedDisk(c, m, v.0), PromConstLabels(m.base)))
  }

  /** The transformation failures the disk loop counts. */
  function DisksReportFailures(c: AtlasClient, m: Process, report: Reporter, visits: seq<(Disk, seq<MeasurementID>)>): nat {
    SumOf(visits, DiskVisitFailures(c, m, report))
  }

  /** The transformation failures one scrape counts: those `report` counts
      for the process's metrics and for each disk's keys. */
  function ReportFailures(c: AtlasClient, m: Process, metrics: seq<PromMetric>, report: Reporter,
                          visits: seq<(Disk, seq<MeasurementID>)>): nat {
    SumOf(metrics, ProcessRowFailures(report, m)) + DisksReportFailures(c, m, report, visits)
  }

  /** The visit orders of a scrape: one per disk, in disk order, each listing
      the disk's metadata keys once. */
  ghost predicate VisitsOf(disks: seq<Disk>, visits: seq<(Disk, seq<MeasurementID>)>) {
    && |visits| == |disks|
    && forall i :: 0 <= i < |visits| ==>
         visits[i].0 == disks[i] && Distinct(visits[i].1)
         && forall k :: k in visits[i].1 <==> k in disks[i].base.metadata
  }

  /** One visit more appends what it sends and adds what it counts. */
  lemma DisksReportsSnoc(c: AtlasClient, m: Process, report: Reporter, visits: seq<(Disk, seq<MeasurementID>)>,
                         visit: (Disk, seq<MeasurementID>))
    ensures DisksReports(c, m, report, visits + [visit]) == DisksReports(c, m, report, visits) + DiskVisit(c, m, report)(visit)
    ensures DisksReportFailures(c, m, report, visits + [visit]) == DisksReportFailures(c, m, report, visits) + DiskVisitFailures(c, m, report)(visit)
  {
    FlatMapSnoc(visits, visit, DiskVisit(c, m, report), DiskVisitFailures(c, m, report));
  }

  /** Visiting the next disk in a key order extends the visits of a prefix. */
  lemma VisitsOfSnoc(disks: seq<Disk>, i: int, visits: seq<(Disk, seq<MeasurementID>)>, order: seq<MeasurementID>)
    requires 0 <= i < |disks| && VisitsOf(disks[..i], visits)
    requires Distinct(order) && forall k :: k in order <==> k in disks[i].base.metadata
    ensures VisitsOf(disks[..i + 1], visits + [(disks[i], order)])
  {
  }

  /** Process: the shared bookkeeping, the info gauge and the measurer. */
  class ProcessCollector {
    const basic: BasicCollector
    const infoDesc: Desc
    var info: real
    var measurer: Process

    constructor (basic: BasicCollector, infoDesc: Desc, measurer: Process)
      ensures this.basic == basic && this.infoDesc == infoDesc && this.measurer == measurer && info == 0.0
    {
      this.basic := basic;
      this.infoDesc := infoDesc;
      this.measurer := measurer;
      info := 0.0;
    }

    /** Process.Collect, for the client and the opaque `report`: one more
        scrape; the process's measurements fetched into the measurer (a
        failure counts one scrape failure and leaves none); `report` on the
        measurer for each metric; the info gauge set to 1 and sent; each disk
        fetched (each failure counted) and reported key by key; then `up`,
        the scrape count and the failure count. `up` ends at 1, and the
        transformation failures grow by what the calls of `report` count. */
    method Collect(c: AtlasClient, report: Reporter)
      returns (emitted: seq<Metric>, ghost visits: seq<(Disk, seq<MeasurementID>)>)
      modifies this, basic
      ensures basic.totalScrapes == old(basic.totalScrapes) + 1
      ensures basic.up == 1.0
      ensures basic.scrapeFailures == old(basic.scrapeFailures) + FetchFailures(c, old(measurer))
      ensures basic.metrics == old(basic.metrics)
      ensures info == 1.0
      ensures basic.measurementTransformationFailures ==
        old(basic.measurementTransformationFailures) + ReportFailures(c, FetchedProcess(c, old(measurer)), basic.metrics, report, visits)
      ensures var m := FetchedProcess(c, old(measurer));
        && measurer == m.(disks := measurer.disks) && |measurer.disks| == |m.disks|
        && (forall i :: 0 <= i < |m.disks| ==> measurer.disks[i] == FetchedDisk(c, m, m.disks[i]))
        && VisitsOf(m.disks, visits)
        && emitted == FlatMap(basic.metrics, ProcessRowOf(report, m)) + [GaugeSample(infoDesc, 1.0)]
                      + DisksReports(c, m, report, visits) + [
                        GaugeSample(UpDesc(basic.prefix), basic.up),
                        CounterSample(TotalScrapesDesc(basic.prefix), basic.totalScrapes),
                        CounterSample(ScrapeFailuresDesc(basic.prefix), basic.scrapeFailures)]
    {
      basic.totalScrapes := basic.totalScrapes + 1;
      var processMeasurements := GetProcessMeasurements(c, measurer);
      if processMeasurements.Err? {
        basic.scrapeFailures := basic.scrapeFailures + 1;
        basic.up := 0.0;
      }
      basic.up := 1.0;
      measurer := measurer.(base := measurer.base.(measurements :=
        if processMeasurements.Ok? then processMeasurements.value else map[]));
      assert measurer == FetchedProcess(c, old(measurer));
      var sent, fetchedDisks, diskFailures, counted;
      sent, fetchedDisks, diskFailures, counted, visits := ScrapeFetched(c, measurer, basic.metrics, report, infoDesc);
      info := 1.0;
      basic.measurementTransformationFailures := basic.measurementTransformationFailures + counted;
      basic.scrapeFailures := basic.scrapeFailures + diskFailures;
      measurer := measurer.(disks := fetchedDisks);
      emitted := sent + [
        GaugeSample(UpDesc(basic.prefix), basic.up),
        CounterSample(TotalScrapesDesc(basic.prefix), basic.totalScrapes),
        CounterSample(ScrapeFailuresDesc(basic.prefix), basic.scrapeFailures)];
    }

    /** Process.Describe: the shared descriptors, then the info gauge's. */
    method Describe() returns (descs: seq<Desc>, ghost order: seq<MeasurementID>)
      ensures descs == OwnDescs(basic.prefix) + MeasurementDescs(order, basic.measurements.entries, basic.prefix, basic.defaultLabels) + [infoDesc]
      ensures Distinct(order) && forall k :: k in order <==> k in basic.measurements.entries
    {
      var shared;
      shared, order := basic.Describe();
      descs := shared + [infoDesc];
    }
  }

  /** The process-metric loop of Collect: `report` on the measurer `m` for
      each metric, in order, and the transformation failures it counts. */
  method ReportProcessMetrics(m: Process, metrics: seq<PromMetric>, report: Reporter) returns (sent: seq<Metric>, counted: nat)
    ensures sent == FlatMap(metrics, ProcessRowOf(report, m))
    ensures counted == SumOf(metrics, ProcessRowFailures(report, m))
  {
    sent, counted := [], 0;
    var j := 0;
    while j < |metrics|
      invariant 0 <= j <= |metrics|
      invariant sent == FlatMap(metrics[..j], ProcessRowOf(report, m))
      invariant counted == SumOf(metrics[..j], ProcessRowFailures(report, m))
    {
      FlatMapPrefixStep(metrics, j, ProcessRowOf(report, m), ProcessRowFailures(report, m));
      var reported := report(OfProcess(m), Some(metrics[j]));
      sent, counted := sent + reported.sent, counted + reported.failures;
      j := j + 1;
    }
    assert metrics[..j] == metrics;
  }

  /** The part of Collect after the process's fetch, for the fetched measurer
      `m`: the process metrics reported, the info gauge at 1, then each disk
      fetched and reported, with the transformation failures `report` counts. */
  method ScrapeFetched(c: AtlasClient, m: Process, metrics: seq<PromMetric>, report: Reporter, infoDesc: Desc)
    returns (sent: seq<Metric>, disks: seq<Disk>, failures: nat, counted: nat, ghost visits: seq<(Disk, seq<MeasurementID>)>)
    ensures |disks| == |m.disks| && forall i :: 0 <= i < |m.disks| ==> disks[i] == FetchedDisk(c, m, m.disks[i])
    ensures failures == SumOf(m.disks, DiskFetchFailure(c, m.base.hostname, m.port))
    ensures VisitsOf(m.disks, visits)
    ensures sent == FlatMap(metrics, ProcessRowOf(report, m)) + [GaugeSample(infoDesc, 1.0)] + DisksReports(c, m, report, visits)
    ensures counted == ReportFailures(c, m, metrics, report, visits)
  {
    var processCounted;
    sent, processCounted := ReportProcessMetrics(m, metrics, report);
    sent := sent + [GaugeSample(infoDesc, 1.0)];
    var disksSent, disksCounted;
    disks, failures, disksSent, disksCounted, visits := ScrapeDisks(c, m, report);
    sent := sent + disksSent;
    counted := processCounted + disksCounted;
  }

  /** One turn of Collect's disk loop, for the measurer `m`: the disk after
      its fetch, 1 when the fetch fails, and what `report` sends and counts
      for each of the disk's metadata keys, in the ghost `order`. */
  method ScrapeDisk(c: AtlasClient, m: Process, d: Disk, report: Reporter)
    returns (fetched: Disk, failed: nat, sent: seq<Metric>, counted: nat, ghost order: seq<MeasurementID>)
    ensures fetched == FetchedDisk(c, m, d)
    ensures failed == DiskFetchFailure(c, m.base.hostname, m.port)(d)
    ensures sent == DiskVisit(c, m, report)((d, order))
    ensures counted == DiskVisitFailures(c, m, report)((d, order))
    ensures Distinct(order) && forall k :: k in order <==> k in d.base.metadata
  {
    var err;
    err, fetched := GetDiskMeasurements(c, m, d);
    failed := if err.Some? then 1 else 0;
    var constLabels := PromConstLabels(m.base);
    sent, counted, order := FlatMapKeys(fetched.base.metadata.Keys, DiskRowOf(report, fetched, constLabels),
                                        DiskRowFailures(report, fetched, constLabels));
  }

  /** Collect's disk loop over the measurer `m`'s disks, in order: the disks
      after their fetches, the failed fetches, and what `report` sends and counts. */
  method ScrapeDisks(c: AtlasClient, m: Process, report: Reporter)
    returns (disks: seq<Disk>, failures: nat, sent: seq<Metric>, counted: nat, ghost visits: seq<(Disk, seq<MeasurementID>)>)
    ensures |disks| == |m.disks| && forall i :: 0 <= i < |m.disks| ==> disks[i] == FetchedDisk(c, m, m.disks[i])
    ensures failures == SumOf(m.disks, DiskFetchFailure(c, m.base.hostname, m.port))
    ensures VisitsOf(m.disks, visits) && sent == DisksReports(c, m, report, visits)
    ensures counted == DisksReportFailures(c, m, report, visits)
  {
    disks, failures, sent, counted, visits := [], 0, [], 0, [];
    var i := 0;
    while i < |m.disks|
      invariant 0 <= i <= |m.disks|
      invariant ScrapedPrefix(c, m, report, i, disks, failures, sent, counted, visits)
    {
      var fetched, failed, block, blockCounted;
      ghost var order;
      fetched, failed, block, blockCounted, order := ScrapeDisk(c, m, m.disks[i], report);
      ScrapedStep(c, m, report, i, disks, failures, sent, counted, visits, fetched, failed, block, blockCounted, order);
      disks := disks + [fetched];
      failures := failures + failed;
      sent := sent + block;
      counted := counted + blockCounted;
      visits := visits + [(m.disks[i], order)];
      i := i + 1;
    }
    ScrapedAll(c, m, report, disks, failures, sent, counted, visits);
  }

  /** What the disk loop has done after its first i turns. */
  ghost predicate ScrapedPrefix(c: AtlasClient, m: Process, report: Reporter, i: nat,
                                disks: seq<Disk>, failures: nat, sent: seq<Metric>, counted: nat,
                                visits: seq<(Disk, seq<MeasurementID>)>)
    requires i <= |m.disks|
  {
    && disks == MapSeq(m.disks[..i], FetchDiskOf(c, m))
    && failures == SumOf(m.disks[..i], DiskFetchFailure(c, m.base.hostname, m.port))
    && VisitsOf(m.disks[..i], visits)
    && sent == DisksReports(c, m, report, visits)
    && counted == DisksReportFailures(c, m, report, visits)
  }

  /** After the last turn, the prefix is all of the disks. */
  lemma ScrapedAll(c: AtlasClient, m: Process, report: Reporter,
                   disks: seq<Disk>, failures: nat, sent: seq<Metric>, counted: nat, visits: seq<(Disk, seq<MeasurementID>)>)
    requires ScrapedPrefix(c, m, report, |m.disks|, disks, failures, sent, counted, visits)
    ensures |disks| == |m.disks| && forall i :: 0 <= i < |m.disks| ==> disks[i] == FetchedDisk(c, m, m.disks[i])
    ensures failures == SumOf(m.disks, DiskFetchFailure(c, m.base.hostname, m.port))
    ensures VisitsOf(m.disks, visits) && sent == DisksReports(c, m, report, visits)
    ensures counted == DisksReportFailures(c, m, report, visits)
  {
    assert m.disks[..|m.disks|] == m.disks;
  }

  /** One turn of the disk loop keeps ScrapedPrefix. */
  lemma ScrapedStep(c: AtlasClient, m: Process, report: Reporter, i: nat,
                    disks: seq<Disk>, failures: nat, sent: seq<Metric>, counted: nat, visits: seq<(Disk, seq<MeasurementID>)>,
                    fetched: Disk, failed: nat, block: seq<Metric>, blockCounted: nat, order: seq<MeasurementID>)
    requires i < |m.disks| && ScrapedPrefix(c, m, report, i, disks, failures, sent, counted, visits)
    requires fetched == FetchedDisk(c, m, m.disks[i])
    requires failed == DiskFetchFailure(c, m.base.hostname, m.port)(m.disks[i])
    requires block == DiskVisit(c, m, report)((m.disks[i], order))
    requires blockCounted == DiskVisitFailures(c, m, report)((m.disks[i], order))
    requires Distinct(order) && forall k :: k in order <==> k in m.disks[i].base.metadata
    ensures ScrapedPrefix(c, m, report, i + 1, disks + [fetched], failures + failed, sent + block,
                          counted + blockCounted, visits + [(m.disks[i], order)])
  {
    SumOfPrefixStep(m.disks, i, DiskFetchFailure(c, m.base.hostname, m.port));
    DisksReportsSnoc(c, m, report, visits, (m.disks[i], order));
    VisitsOfSnoc(m.disks, i, visits, order);
    MapSeqPrefixStep(m.disks, i, FetchDiskOf(c, m));
  }

  /** NewProcessCollector: list the process's disks (a failure aborts);
      unless it is a SHARD_MONGOS, attach one disk per listed disk with its
      metadata; fetch the process metadata (a failure aborts); then a
      collector over the measurer whose metrics are the process's own
      (`newMetrics`, which the four-argument newBasicCollector computes and
      which is not shown) followed by the disk metrics, each measurement ID
      once. The ghost `built` is the measurer before its metadata, `keys`
      the order the disk keys were considered in. Building a disk panics
      unless the process's names split. */
  method NewProcessCollector(c: AtlasClient, p: AtlasProcess, newMetrics: Process -> seq<PromMetric>)
    returns (r: Result<ProcessCollector, Failure>, ghost built: Process, ghost keys: seq<MeasurementID>)
    requires p.typeName != TYPE_MONGOS && ListDisks(c, p).Ok? && |ListDisks(c, p).value| > 0 ==> Splittable(p)
    ensures ListDisks(c, p).Err? ==> r == Err(Http(ListDisks(c, p).error))
    ensures ListDisks(c, p).Ok? ==> && built == ProcessFromMongodbAtlasProcess(p).(disks := built.disks)
                                    && (p.typeName == TYPE_MONGOS ==> built.disks == [])
    ensures ListDisks(c, p).Ok? && p.typeName != TYPE_MONGOS ==>
      var listed := ListDisks(c, p).value;
      && |built.disks| == |listed|
      && forall k :: 0 <= k < |listed| ==> built.disks[k] == InitialDisk(c, ProcessFromMongodbAtlasProcess(p), p, listed[k])
    ensures ListDisks(c, p).Ok? && ProcessResponse(c, built).Err? ==>
      r == Err(Http(AsHTTPError(ProcessResponse(c, built).error)))
    ensures ListDisks(c, p).Ok? && ProcessResponse(c, built).Ok? && |ProcessResponse(c, built).value| == 0 ==>
      r == Err(Http(HTTPError(0, GoError(NoProcessMeasurementsMessage))))
    ensures r.Ok? <==> ListDisks(c, p).Ok? && ProcessResponse(c, built).Ok? && |ProcessResponse(c, built).value| > 0
    ensures r.Ok? ==>
      var col := r.value;
      var q := col.measurer;
      && fresh(col) && fresh(col.basic) && fresh(col.basic.measurements)
      && q == built.(base := built.base.(metadata := MetadataMap(ProcessResponse(c, built).value)))
      && col.basic.prefix == ProcessesPrefix && col.basic.defaultLabels == []
      && col.basic.up == 0.0 && col.basic.totalScrapes == 0 && col.basic.scrapeFailures == 0
      && col.basic.measurementTransformationFailures == 0 && col.info == 0.0
      && col.infoDesc == Desc(BuildFQName(Namespace, ProcessesPrefix, "info"), InfoHelp, [], PromConstLabels(q.base))
      && col.basic.metrics == newMetrics(q) + FilterMap(keys, MetricOption(q.base.metadata, [], PromConstLabels(q.base)))
      && Distinct(keys) && (forall k :: k in keys <==> k in MetadataKeysOf(q.disks))
  {
    var processMetadata := ProcessFromMongodbAtlasProcess(p);
    built := processMetadata;
    keys := [];
    var disks := ListDisks(c, p);
    if disks.Err? {
      return Err(Http(disks.error)), built, keys;
    }
    if p.typeName != TYPE_MONGOS {
      processMetadata := AttachDisks(c, processMetadata, p, disks.value);
    }
    built := processMetadata;
    var httpErr;
    httpErr, processMetadata := GetProcessMeasurementsMetadata(c, processMetadata);
    if httpErr.Some? {
      return Err(Http(httpErr.value)), built, keys;
    }
    var collector;
    collector, keys := BuildCollector(processMetadata, newMetrics);
    return Ok(collector), built, keys;
  }

  /** The last step of NewProcessCollector: the collector over a measurer
      with its metadata, its metrics the process's own followed by the disk
      metrics, each measurement ID once. */
  method BuildCollector(q: Process, newMetrics: Process -> seq<PromMetric>)
    returns (col: ProcessCollector, ghost keys: seq<MeasurementID>)
    ensures fresh(col) && fresh(col.basic) && fresh(col.basic.measurements)
    ensures col.measurer == q && col.info == 0.0
    ensures col.basic.prefix == ProcessesPrefix && col.basic.defaultLabels == []
    ensures col.basic.up == 0.0 && col.basic.totalScrapes == 0 && col.basic.scrapeFailures == 0
    ensures col.basic.measurementTransformationFailures == 0
    ensures col.infoDesc == Desc(BuildFQName(Namespace, ProcessesPrefix, "info"), InfoHelp, [], PromConstLabels(q.base))
    ensures col.basic.metrics == newMetrics(q) + FilterMap(keys, MetricOption(q.base.metadata, [], PromConstLabels(q.base)))
    ensures Distinct(keys) && forall k :: k in keys <==> k in MetadataKeysOf(q.disks)
  {
    keys := [];
    var diskMetrics := [];
    if |q.disks| > 0 {
      diskMetrics, keys := DedupDiskMetrics(q);
    }
    var basic := new BasicCollector(map[], PromVariableLabelNames(q.base), ProcessesPrefix);
    basic.metrics := newMetrics(q) + diskMetrics;
    var info := Desc(BuildFQName(Namespace, ProcessesPrefix, "info"), InfoHelp, [], PromConstLabels(q.base));
    col := new ProcessCollector(basic, info, q);
  }

  // ------------------------------------------------------------ properties

  /** A scrape counts at most one failure for the process and one per disk,
      and none exactly when every fetch succeeds. */
  lemma FetchFailuresBound(c: AtlasClient, m: Process)
    ensures FetchFailures(c, m) <= 1 + |m.disks|
    ensures FetchFailures(c, m) == 0 <==>
      ProcessResponse(c, m).Ok? && forall i :: 0 <= i < |m.disks| ==> DiskResponse(c, m, m.disks[i]).Ok?
  {
    SumOfIndicators(m.disks, DiskFetchFailure(c, m.base.hostname, m.port));
  }

  /** A scrape counts no transformation failure exactly when no call of
      `report` counts one: neither for a process metric nor for a key of a
      disk. */
  lemma NoFailuresExactly(c: AtlasClient, m: Process, metrics: seq<PromMetric>, report: Reporter,
                          visits: seq<(Disk, seq<MeasurementID>)>)
    requires VisitsOf(m.disks, visits)
    ensures ReportFailures(c, m, metrics, report, visits) == 0 <==>
      && (forall j :: 0 <= j < |metrics| ==> report(OfProcess(m), Some(metrics[j])).failures == 0)
      && forall i, k :: 0 <= i < |m.disks| && k in m.disks[i].base.metadata ==>
           report(OfDisk(FetchedDisk(c, m, m.disks[i])), MetricOption(m.disks[i].base.metadata, [], PromConstLabels(m.base))(k)).failures == 0
  {
    SumOfZero(metrics, ProcessRowFailures(report, m));
    SumOfZero(visits, DiskVisitFailures(c, m, report));
    forall i | 0 <= i < |visits|
      ensures DiskVisitFailures(c, m, report)(visits[i]) == 0 <==>
        forall k :: k in m.disks[i].base.metadata ==>
          report(OfDisk(FetchedDisk(c, m, m.disks[i])), MetricOption(m.disks[i].base.metadata, [], PromConstLabels(m.base))(k)).failures == 0
    {
      DiskVisitNoFailures(c, m, report, visits[i]);
    }
  }

  /** One disk visit counts no transformation failure exactly when no call
      of `report` for one of the disk's keys counts one. */
  lemma DiskVisitNoFailures(c: AtlasClient, m: Process, report: Reporter, visit: (Disk, seq<MeasurementID>))
    requires forall k :: k in visit.1 <==> k in visit.0.base.metadata
    ensures DiskVisitFailures(c, m, report)(visit) == 0 <==>
      forall k :: k in visit.0.base.metadata ==>
        report(OfDisk(FetchedDisk(c, m, visit.0)), MetricOption(visit.0.base.metadata, [], PromConstLabels(m.base))(k)).failures == 0
  {
    var d := FetchedDisk(c, m, visit.0);
    var count := DiskRowFailures(report, d, PromConstLabels(m.base));
    SumOfZero(visit.1, count);
    assert d.base.metadata == visit.0.base.metadata;
    if forall j :: 0 <= j < |visit.1| ==> count(visit.1[j]) == 0 {
      forall k | k in visit.0.base.metadata ensures count(k) == 0 {
        var j :| 0 <= j < |visit.1| && visit.1[j] == k;
      }
    }
  }

  /** `report` never sends a sample under the given descriptor. */
  ghost predicate NeverSends(report: Reporter, d: Desc) {
    forall r, metric, e :: e in report(r, metric).sent ==> e.desc != d
  }

  /** A sample of the disk loop is one `report` sends for some disk and one
      of its metadata keys: every key of every disk is reported. */
  lemma DisksReportsExactly(c: AtlasClient, m: Process, report: Reporter, visits: seq<(Disk, seq<MeasurementID>)>, e: Metric)
    requires VisitsOf(m.disks, visits)
    ensures e in DisksReports(c, m, report, visits) <==>
      exists i, k :: 0 <= i < |m.disks| && k in m.disks[i].base.metadata &&
        e in report(OfDisk(FetchedDisk(c, m, m.disks[i])), MetricOption(m.disks[i].base.metadata, [], PromConstLabels(m.base))(k)).sent
  {
    FlatMapMembers(visits, DiskVisit(c, m, report), e);
    forall i | 0 <= i < |visits|
      ensures e in DiskVisit(c, m, report)(visits[i]) <==>
        exists k :: k in m.disks[i].base.metadata &&
          e in report(OfDisk(FetchedDisk(c, m, m.disks[i])), MetricOption(m.disks[i].base.metadata, [], PromConstLabels(m.base))(k)).sent
    {
      DiskVisitExactly(c, m, report, visits[i], e);
    }
  }

  /** A sample of one disk visit is one `report` sends for one of the disk's keys. */
  lemma DiskVisitExactly(c: AtlasClient, m: Process, report: Reporter, visit: (Disk, seq<MeasurementID>), e: Metric)
    requires forall k :: k in visit.1 <==> k in visit.0.base.metadata
    ensures e in DiskVisit(c, m, report)(visit) <==>
      exists k :: k in visit.0.base.metadata &&
        e in report(OfDisk(FetchedDisk(c, m, visit.0)), MetricOption(visit.0.base.metadata, [], PromConstLabels(m.base))(k)).sent
  {
    var d, option := FetchedDisk(c, m, visit.0), MetricOption(visit.0.base.metadata, [], PromConstLabels(m.base));
    var row := DiskRowOf(report, d, PromConstLabels(m.base));
    assert d.base.metadata == visit.0.base.metadata;
    assert forall k :: row(k) == report(OfDisk(d), option(k)).sent;
    FlatMapMembers(visit.1, row, e);
    assert DiskVisit(c, m, report)(visit) == FlatMap(visit.1, row);
    if exists k :: k in visit.0.base.metadata && e in report(OfDisk(d), option(k)).sent {
      var k :| k in visit.0.base.metadata && e in report(OfDisk(d), option(k)).sent;
      var j :| 0 <= j < |visit.1| && visit.1[j] == k;
      assert e in row(visit.1[j]);
    }
  }

  /** No sample `report` sends for the process's metrics has the descriptor. */
  lemma ProcessReportsAvoid(metrics: seq<PromMetric>, report: Reporter, m: Process, d: Desc)
    requires NeverSends(report, d)
    ensures forall k :: 0 <= k < |FlatMap(metrics, ProcessRowOf(report, m))| ==> FlatMap(metrics, ProcessRowOf(report, m))[k].desc != d
  {
    var head := FlatMap(metrics, ProcessRowOf(report, m));
    forall k | 0 <= k < |head| ensures head[k].desc != d {
      FlatMapMembers(metrics, ProcessRowOf(report, m), head[k]);
    }
  }

  /** Whether a sample is not under the descriptor. */
  function NotUnder(d: Desc): Metric -> bool {
    (e: Metric) => e.desc != d
  }

  /** No sample of the disk loop has the descriptor. */
  lemma DisksReportsAvoid(c: AtlasClient, m: Process, report: Reporter, visits: seq<(Disk, seq<MeasurementID>)>, d: Desc)
    requires NeverSends(report, d)
    ensures forall k :: 0 <= k < |DisksReports(c, m, report, visits)| ==> DisksReports(c, m, report, visits)[k].desc != d
  {
    var visit := DiskVisit(c, m, report);
    forall i, e | 0 <= i < |visits| && e in visit(visits[i]) ensures NotUnder(d)(e) {
      var row := DiskRowOf(report, FetchedDisk(c, m, visits[i].0), PromConstLabels(m.base));
      forall j, y | 0 <= j < |visits[i].1| && y in row(visits[i].1[j]) ensures NotUnder(d)(y) {
        var disk := FetchedDisk(c, m, visits[i].0);
        assert y in report(OfDisk(disk), MetricOption(disk.base.metadata, [], PromConstLabels(m.base))(visits[i].1[j])).sent;
      }
      FlatMapAll(visits[i].1, row, NotUnder(d));
      var k :| 0 <= k < |FlatMap(visits[i].1, row)| && FlatMap(visits[i].1, row)[k] == e;
    }
    FlatMapAll(visits, visit, NotUnder(d));
  }

  /** When `report` never uses the info descriptor, a scrape sends exactly
      one sample under it: the info gauge at 1, after the process metrics. */
  lemma InfoSentOnce(c: AtlasClient, m: Process, metrics: seq<PromMetric>, report: Reporter,
                     visits: seq<(Disk, seq<MeasurementID>)>, infoDesc: Desc, prefix: string,
                     up: real, total: nat, failures: nat)
    requires NeverSends(report, infoDesc) && infoDesc.help == InfoHelp
    ensures WithDesc(FlatMap(metrics, ProcessRowOf(report, m)) + [GaugeSample(infoDesc, 1.0)]
                     + DisksReports(c, m, report, visits) + [
                       GaugeSample(UpDesc(prefix), up),
                       CounterSample(TotalScrapesDesc(prefix), total),
                       CounterSample(ScrapeFailuresDesc(prefix), failures)], infoDesc)
            == [GaugeSample(infoDesc, 1.0)]
  {
    var tail := [GaugeSample(UpDesc(prefix), up), CounterSample(TotalScrapesDesc(prefix), total),
                 CounterSample(ScrapeFailuresDesc(prefix), failures)];
    ProcessReportsAvoid(metrics, report, m, infoDesc);
    DisksReportsAvoid(c, m, report, visits, infoDesc);
    assert forall k :: 0 <= k < |tail| ==> tail[k].desc != infoDesc;
    WithDescSingle(FlatMap(metrics, ProcessRowOf(report, m)), GaugeSample(infoDesc, 1.0),
                   DisksReports(c, m, report, visits), tail, infoDesc);
  }
}
