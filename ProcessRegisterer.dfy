/** registerer/process_registerer.go: the registry pass. Each pass lists the
    project's processes, builds a collector for every listed process and
    records it under the process's ID followed by its type name, unless that
    key is already recorded. A failed listing counts one metadata scrape
    error under the response's status code. */
module ProcessRegisterer {
  import opened Wrappers
  import opened Strings
  import opened HttpErrors
  import opened Prom
  import opened Atlas
  import opened BaseMeasurer
  import opened ProcessMeasurer
  import opened AtlasClient
  import opened CollectorCommon
  import opened ProcessCollector
  import opened KeyedMaps

  const Subsystem: string := "registerer"

  /** The name of the metadata scrape error counter vector, labelled by "status". */
  function MetadataScrapeName(): string {
    BuildFQName(Namespace, Subsystem, "processes_metadatascrape")
  }

  /** The registry key of a process: its ID followed by its type name. */
  function CollectorKey(p: AtlasProcess): (k: string)
    ensures |k| == |p.id| + |p.typeName| && k[..|p.id|] == p.id && k[|p.id|..] == p.typeName
  {
    p.id + p.typeName
  }

  /** The label a listing error is counted under: the status code in
      base 10, its digits reading back to a non-negative code. */
  function StatusLabel(e: HTTPError): (r: string)
    ensures |r| >= 1
    ensures e.statusCode >= 0 ==> (forall i :: 0 <= i < |r| ==> '0' <= r[i] <= '9') && DecimalValue(r) == e.statusCode
    ensures e.statusCode < 0 ==> r[0] == '-'
  {
    if e.statusCode >= 0 then ItoaOfNatural(e.statusCode); Itoa(e.statusCode) else Itoa(e.statusCode)
  }

  /** The processes a pass iterates over: the listing, or none when it fails. */
  function Listed(c: AtlasClient): seq<AtlasProcess> {
    var listing := ListedProcesses(c.api.processes(c.projectID), c.atlasClusters);
    if listing.Ok? then listing.value else []
  }

  /** What NewProcessCollector demands of a process so as not to panic. */
  predicate Constructible(c: AtlasClient, p: AtlasProcess) {
    p.typeName != TYPE_MONGOS && ListDisks(c, p).Ok? && |ListDisks(c, p).value| > 0 ==> Splittable(p)
  }

  /** NewProcessCollector succeeds exactly when the disks list and the
      process's measurement metadata is fetched and not empty. */
  predicate Builds(c: AtlasClient, p: AtlasProcess) {
    var response := ProcessResponse(c, ProcessFromMongodbAtlasProcess(p));
    ListDisks(c, p).Ok? && response.Ok? && |response.value| > 0
  }

  /** The counts after one more error under `status`. */
  function Increment(counts: map<string, nat>, status: string): (r: map<string, nat>)
    ensures r.Keys == counts.Keys + {status}
    ensures r[status] == (if status in counts then counts[status] else 0) + 1
    ensures forall l :: l in counts && l != status ==> r[l] == counts[l]
  {
    counts[status := (if status in counts then counts[status] else 0) + 1]
  }

  /** Errors with different status codes are counted under different labels. */
  lemma StatusLabelsDistinct(a: HTTPError, b: HTTPError)
    ensures StatusLabel(a) == StatusLabel(b) <==> a.statusCode == b.statusCode
  {
    if StatusLabel(a) == StatusLabel(b) {
      ItoaInjective(a.statusCode, b.statusCode);
    }
  }

  // ------------------------------------------------------------ as written

  /** The collector map after a pass over `ps`, as written: in listing order,
      each process's built collector, or nil (None) when construction failed,
      is recorded under its key when the key is not yet recorded. */
  function Recorded(m: map<string, Option<ProcessCollector>>, ps: seq<AtlasProcess>,
                    built: seq<Option<ProcessCollector>>): map<string, Option<ProcessCollector>>
    requires |built| == |ps|
  {
    AddNew(m, ps, built, CollectorKey)
  }

  /** A pass deletes and overwrites nothing and adds the key of every listed
      process and no other. */
  lemma RecordedKeys(m: map<string, Option<ProcessCollector>>, ps: seq<AtlasProcess>,
                     built: seq<Option<ProcessCollector>>)
    requires |built| == |ps|
    ensures forall k :: k in Recorded(m, ps, built) <==> k in m || exists i :: 0 <= i < |ps| && CollectorKey(ps[i]) == k
    ensures forall k :: k in m ==> Recorded(m, ps, built)[k] == m[k]
  {
    forall k
      ensures k in Recorded(m, ps, built) <==> k in m || exists i :: 0 <= i < |ps| && CollectorKey(ps[i]) == k
      ensures k in m ==> Recorded(m, ps, built)[k] == m[k]
    {
      AddNewKeys(m, ps, built, CollectorKey, k);
      if k in m {
        AddNewKeeps(m, ps, built, CollectorKey, k);
      }
    }
  }

  /** A new key holds what was built for the first listed process with that
      key, even when that is nil. */
  lemma RecordedFirst(m: map<string, Option<ProcessCollector>>, ps: seq<AtlasProcess>,
                      built: seq<Option<ProcessCollector>>, i: int)
    requires |built| == |ps| && 0 <= i < |ps|
    requires CollectorKey(ps[i]) !in m && forall j :: 0 <= j < i ==> CollectorKey(ps[j]) != CollectorKey(ps[i])
    ensures CollectorKey(ps[i]) in Recorded(m, ps, built) && Recorded(m, ps, built)[CollectorKey(ps[i])] == built[i]
  {
    AddNewFirst(m, ps, built, CollectorKey, i);
  }

  /** Where the as-written pass panics: at a turn whose construction failed
      and whose key is not yet recorded. The loop records the nil collector
      and hands it to MustRegister, which calls Describe on it; Describe
      reads the collector's fields through the nil pointer
      (collector/process.go:170), so the exporter stops at the first such
      turn. */
  predicate PanicsAt(m: map<string, Option<ProcessCollector>>, ps: seq<AtlasProcess>,
                     built: seq<Option<ProcessCollector>>, i: int)
    requires |built| == |ps|
  {
    0 <= i < |ps| && built[i] == None && CollectorKey(ps[i]) !in Recorded(m, ps[..i], built[..i])
  }

  /** The as-written pass panics at a turn exactly when that turn's
      construction failed, its key was not in the map before the pass and
      no earlier listed process has that key. */
  lemma PanicsAtExactly(m: map<string, Option<ProcessCollector>>, ps: seq<AtlasProcess>,
                        built: seq<Option<ProcessCollector>>, i: int)
    requires |built| == |ps| && 0 <= i < |ps|
    ensures PanicsAt(m, ps, built, i) <==>
      built[i] == None && CollectorKey(ps[i]) !in m && forall j :: 0 <= j < i ==> CollectorKey(ps[j]) != CollectorKey(ps[i])
  {
    AddNewKeys(m, ps[..i], built[..i], CollectorKey, CollectorKey(ps[i]));
    assert forall j :: 0 <= j < i ==> ps[..i][j] == ps[j];
  }

  /** A pass that does not panic records no nil: every key it adds holds a
      collector that was built. */
  lemma CompletedPassRecordsNoNil(m: map<string, Option<ProcessCollector>>, ps: seq<AtlasProcess>,
                                  built: seq<Option<ProcessCollector>>)
    requires |built| == |ps| && forall i :: 0 <= i < |ps| ==> !PanicsAt(m, ps, built, i)
    ensures forall k :: k in Recorded(m, ps, built) && k !in m ==> Recorded(m, ps, built)[k].Some?
  {
    forall k | k in Recorded(m, ps, built) && k !in m
      ensures Recorded(m, ps, built)[k].Some?
    {
      AddNewKeys(m, ps, built, CollectorKey, k);
      var i :| 0 <= i < |ps| && CollectorKey(ps[i]) == k;
      while exists j :: 0 <= j < i && CollectorKey(ps[j]) == k
        invariant 0 <= i < |ps| && CollectorKey(ps[i]) == k
        decreases i
      {
        var j :| 0 <= j < i && CollectorKey(ps[j]) == k;
        i := j;
      }
      AddNewFirst(m, ps, built, CollectorKey, i);
      PanicsAtExactly(m, ps, built, i);
    }
  }

  /** What the as-written map would hold if registering nil did not panic:
      a process whose construction failed on the pass that first listed it
      would stay recorded as nil through every later pass, its key taken, so
      that it is never built again. PanicsAtExactly shows that the pass
      stops at that very turn instead. */
  lemma FailedProcessNeverRetried(m: map<string, Option<ProcessCollector>>, ps: seq<AtlasProcess>,
                                  built: seq<Option<ProcessCollector>>, i: int,
                                  later: seq<AtlasProcess>, rebuilt: seq<Option<ProcessCollector>>)
    requires |built| == |ps| && 0 <= i < |ps| && |rebuilt| == |later|
    requires CollectorKey(ps[i]) !in m && forall j :: 0 <= j < i ==> CollectorKey(ps[j]) != CollectorKey(ps[i])
    requires built[i] == None
    ensures var after := Recorded(m, ps, built);
      && CollectorKey(ps[i]) in after && after[CollectorKey(ps[i])] == None
      && CollectorKey(ps[i]) in Recorded(after, later, rebuilt) && Recorded(after, later, rebuilt)[CollectorKey(ps[i])] == None
  {
    AddNewFirst(m, ps, built, CollectorKey, i);
    AddNewKeeps(Recorded(m, ps, built), later, rebuilt, CollectorKey, CollectorKey(ps[i]));
  }

  // ------------------------------------------------------------ corrected

  /** The collector map after a pass that records only collectors that were
      built, so that a failed construction is tried again on the next pass. */
  function RecordedRetrying(m: map<string, ProcessCollector>, ps: seq<AtlasProcess>,
                            built: seq<Option<ProcessCollector>>): map<string, ProcessCollector>
    requires |built| == |ps|
  {
    AddPresent(m, ps, built, CollectorKey)
  }

  /** The retrying pass deletes and overwrites nothing and adds exactly the
      keys of the listed processes whose collector was built, each holding
      one of them: a key is missing after the pass only when every
      construction for it failed, so the next pass that lists the process
      builds it again. */
  lemma RetryingPassRecordsBuilt(m: map<string, ProcessCollector>, ps: seq<AtlasProcess>,
                                 built: seq<Option<ProcessCollector>>)
    requires |built| == |ps|
    ensures forall k :: k in RecordedRetrying(m, ps, built) <==>
      k in m || exists i :: 0 <= i < |ps| && CollectorKey(ps[i]) == k && built[i].Some?
    ensures forall k :: k in m ==> RecordedRetrying(m, ps, built)[k] == m[k]
    ensures forall k :: k in RecordedRetrying(m, ps, built) && k !in m ==>
      exists i :: 0 <= i < |ps| && CollectorKey(ps[i]) == k && built[i] == Some(RecordedRetrying(m, ps, built)[k])
  {
    forall k
      ensures k in RecordedRetrying(m, ps, built) <==>
        k in m || exists i :: 0 <= i < |ps| && CollectorKey(ps[i]) == k && built[i].Some?
      ensures k in m ==> RecordedRetrying(m, ps, built)[k] == m[k]
      ensures k in RecordedRetrying(m, ps, built) && k !in m ==>
        exists i :: 0 <= i < |ps| && CollectorKey(ps[i]) == k && built[i] == Some(RecordedRetrying(m, ps, built)[k])
    {
      AddPresentKeys(m, ps, built, CollectorKey, k);
      if k in m {
        AddPresentKeeps(m, ps, built, CollectorKey, k);
      }
    }
  }

  /** Where the as-written pass records nil for a process whose every
      construction failed, the retrying pass leaves its key free. */
  lemma RetryingLeavesFailedFree(m: map<string, ProcessCollector>, ps: seq<AtlasProcess>,
                                 built: seq<Option<ProcessCollector>>, i: int)
    requires |built| == |ps| && 0 <= i < |ps| && CollectorKey(ps[i]) !in m
    requires forall j :: 0 <= j < |ps| && CollectorKey(ps[j]) == CollectorKey(ps[i]) ==> built[j] == None
    ensures CollectorKey(ps[i]) !in RecordedRetrying(m, ps, built)
  {
    AddPresentKeys(m, ps, built, CollectorKey, CollectorKey(ps[i]));
  }

  // ------------------------------------------------------------ the pass

  /** The package-level metadata scrape error counter vector: a count per
      status label. */
  class CounterVec {
    var counts: map<string, nat>

    constructor ()
      ensures counts == map[]
    {
      counts := map[];
    }
  }

  /** ProcessRegisterer: the client, the collector map, and the shared
      metadata scrape error counter vector. */
  class Registerer {
    const client: AtlasClient
    const metadataScrapeErrors: CounterVec
    /** The collectors by key, only ever ones that were built. */
    var collectors: map<string, ProcessCollector>

    /** NewProcessRegisterer: the client and an empty collector map. */
    constructor (c: AtlasClient, errors: CounterVec)
      ensures client == c && metadataScrapeErrors == errors && collectors == map[]
    {
      client := c;
      metadataScrapeErrors := errors;
      collectors := map[];
    }

    /** registerAtlasProcesses, corrected so that a failed construction is
        retried (the as-written pass and PanicsAtExactly show why):
        a failed listing counts one error under its status label and lists
        nothing; a collector is built for every listed process, in order,
        and recorded when it was built and its key is new. */
    method RegisterAtlasProcesses(newMetrics: Process -> seq<PromMetric>) returns (ghost built: seq<Option<ProcessCollector>>)
      requires forall i :: 0 <= i < |Listed(client)| ==> Constructible(client, Listed(client)[i])
      modifies this, metadataScrapeErrors
      ensures var listing := ListedProcesses(client.api.processes(client.projectID), client.atlasClusters);
        metadataScrapeErrors.counts == if listing.Err? then Increment(old(metadataScrapeErrors.counts), StatusLabel(listing.error))
                                       else old(metadataScrapeErrors.counts)
      ensures |built| == |Listed(client)|
      ensures forall i :: 0 <= i < |built| ==> (built[i].Some? <==> Builds(client, Listed(client)[i]))
      ensures forall i :: 0 <= i < |built| && built[i].Some? ==> fresh(built[i].value)
      ensures collectors == RecordedRetrying(old(collectors), Listed(client), built)
    {
      var listing := ListProcesses(client);
      if listing.Err? {
        metadataScrapeErrors.counts := Increment(metadataScrapeErrors.counts, StatusLabel(listing.error));
      }
      var processes := if listing.Ok? then listing.value else [];
      assert processes == Listed(client);
      var updated;
      updated, built := RegisterAll(client, collectors, processes, newMetrics);
      collectors := updated;
    }
  }

  /** The loop of registerAtlasProcesses over the listed processes `ps`, on
      the collector map `m`, recording only the collectors that were built. */
  method RegisterAll(c: AtlasClient, m: map<string, ProcessCollector>, ps: seq<AtlasProcess>,
                     newMetrics: Process -> seq<PromMetric>)
    returns (updated: map<string, ProcessCollector>, ghost built: seq<Option<ProcessCollector>>)
    requires AllConstructible(c, ps)
    ensures |built| == |ps| && forall i :: 0 <= i < |ps| ==> (built[i].Some? <==> Builds(c, ps[i]))
    ensures forall i :: 0 <= i < |ps| && built[i].Some? ==> fresh(built[i].value)
    ensures updated == RecordedRetrying(m, ps, built)
  {
    updated, built := m, [];
    var i := 0;
    while i < |ps|
      invariant i == |built| && RecordedPrefix(c, m, ps, built, updated)
      invariant forall j :: 0 <= j < i && built[j].Some? ==> fresh(built[j].value)
    {
      var collector := TryBuild(c, ps[i], newMetrics);
      RecordedStep(c, m, ps, built, updated, collector);
      var key := CollectorKey(ps[i]);
      if collector.Some? && key !in updated {
        updated := updated[key := collector.value];
      }
      built := built + [collector];
      i := i + 1;
    }
    assert ps[..|built|] == ps;
  }

  /** What the loop has done after |built| turns: a collector built for each
      of those processes exactly when its construction succeeds, and the map
      of that prefix. */
  ghost predicate RecordedPrefix(c: AtlasClient, m: map<string, ProcessCollector>, ps: seq<AtlasProcess>,
                                 built: seq<Option<ProcessCollector>>, updated: map<string, ProcessCollector>) {
    && |built| <= |ps|
    && (forall j :: 0 <= j < |built| ==> (built[j].Some? <==> Builds(c, ps[j])))
    && updated == RecordedRetrying(m, ps[..|built|], built)
  }

  /** One turn of the loop keeps RecordedPrefix. */
  lemma RecordedStep(c: AtlasClient, m: map<string, ProcessCollector>, ps: seq<AtlasProcess>,
                     built: seq<Option<ProcessCollector>>, updated: map<string, ProcessCollector>,
                     collector: Option<ProcessCollector>)
    requires RecordedPrefix(c, m, ps, built, updated) && |built| < |ps|
    requires collector.Some? <==> Builds(c, ps[|built|])
    ensures var key := CollectorKey(ps[|built|]);
      RecordedPrefix(c, m, ps, built + [collector],
                     if collector.Some? && key !in updated then updated[key := collector.value] else updated)
  {
    BuiltSnoc(c, ps, built, collector);
    RecordedSnoc(m, ps, built, collector);
  }

  lemma BuiltSnoc(c: AtlasClient, ps: seq<AtlasProcess>, built: seq<Option<ProcessCollector>>, collector: Option<ProcessCollector>)
    requires |built| < |ps| && forall j :: 0 <= j < |built| ==> (built[j].Some? <==> Builds(c, ps[j]))
    requires collector.Some? <==> Builds(c, ps[|built|])
    ensures forall j :: 0 <= j < |built + [collector]| ==> ((built + [collector])[j].Some? <==> Builds(c, ps[j]))
  {
  }

  lemma RecordedSnoc(m: map<string, ProcessCollector>, ps: seq<AtlasProcess>,
                     built: seq<Option<ProcessCollector>>, collector: Option<ProcessCollector>)
    requires |built| < |ps|
    ensures var before, key := RecordedRetrying(m, ps[..|built|], built), CollectorKey(ps[|built|]);
      RecordedRetrying(m, ps[..|built + [collector]|], built + [collector])
        == if key in before || collector.None? then before else before[key := collector.value]
  {
    assert ps[..|built + [collector]|] == ps[..|built|] + [ps[|built|]];
    AddPresentSnoc(m, ps[..|built|], built, CollectorKey, ps[|built|], collector);
  }

  /** Every process of `ps` can be handed to NewProcessCollector. */
  ghost predicate AllConstructible(c: AtlasClient, ps: seq<AtlasProcess>) {
    forall i :: 0 <= i < |ps| ==> Constructible(c, ps[i])
  }

  /** One construction of the pass: the built collector, or nil when
      NewProcessCollector returns an error (which is only logged). */
  method TryBuild(c: AtlasClient, p: AtlasProcess, newMetrics: Process -> seq<PromMetric>)
    returns (collector: Option<ProcessCollector>)
    requires Constructible(c, p)
    ensures collector.Some? <==> Builds(c, p)
    ensures collector.Some? ==> fresh(collector.value) && collector.value.basic.totalScrapes == 0
  {
    var r;
    ghost var built, keys;
    r, built, keys := NewProcessCollector(c, p, newMetrics);
    assert ListDisks(c, p).Ok? ==> ProcessResponse(c, built) == ProcessResponse(c, ProcessFromMongodbAtlasProcess(p));
    collector := if r.Ok? then Some(r.value) else None;
  }
}
