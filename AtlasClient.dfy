/** mongodbatlas/mongodbatlas.go: what the exporter's Atlas client does with
    the API's responses. The HTTP API itself is an oracle: each endpoint is a
    function from its arguments to a response or a failure carrying the
    response's status code. */
module AtlasClient {
  import opened Wrappers
  import opened Collections
  import opened HttpErrors
  import opened Measurements
  import opened Atlas
  import opened BaseMeasurer
  import opened DiskMeasurer
  import opened ProcessMeasurer

  const TYPE_MONGOS: string := "SHARD_MONGOS"

  const NoDiskMeasurementsMessage: string :=
    "can't find any resource with disk measurements, please create Atlas resources first and restart the exporter"
  const NoProcessMeasurementsMessage: string :=
    "can't find any resource with process measurements, please create Atlas resources first and restart the exporter"

  /** A failed API call: the response's status code and the library's error. */
  datatype ApiFailure = ApiFailure(statusCode: int, err: GoError)

  /** The Atlas endpoints the client calls, with the project ID as first argument. */
  datatype Api = Api(
    processes: string -> Result<seq<AtlasProcess>, ApiFailure>,
    processDisks: (string, string, int) -> Result<seq<AtlasDisk>, ApiFailure>,
    processMeasurements: (string, string, int) -> Result<seq<AtlasMeasurement>, ApiFailure>,
    processDiskMeasurements: (string, string, int, string) -> Result<seq<AtlasMeasurement>, ApiFailure>)

  /** AtlasClient: the API, the project and the clusters to keep. */
  datatype AtlasClient = AtlasClient(api: Api, projectID: string, atlasClusters: seq<string>)

  /** The HTTPError for a failed call. */
  function AsHTTPError(f: ApiFailure): HTTPError {
    HTTPError(f.statusCode, f.err)
  }

  // ---------------------------------------------------------------- listing

  /** A cluster name selects the processes whose alias it prefixes. */
  predicate Prefixes(cluster: string, p: AtlasProcess) {
    cluster <= p.userAlias
  }

  /** The filtered list: for each cluster name in turn, the processes it prefixes. */
  function FilterByClusters(ps: seq<AtlasProcess>, clusters: seq<string>): seq<AtlasProcess> {
    SelectAll(ps, clusters, Prefixes)
  }

  /** What ListProcesses returns for an API response. */
  function ListedProcesses(response: Result<seq<AtlasProcess>, ApiFailure>, clusters: seq<string>): Result<seq<AtlasProcess>, HTTPError>
  {
    match response
    case Err(f) => Err(AsHTTPError(f))
    case Ok(ps) => if |clusters| == 0 then Ok(ps) else Ok(FilterByClusters(ps, clusters))
  }

  /** AtlasClient.ListProcesses: the API's list, or its failure as an HTTPError
      with the response's status code; with cluster names configured, the
      processes each name prefixes, cluster by cluster. */
  method ListProcesses(c: AtlasClient) returns (r: Result<seq<AtlasProcess>, HTTPError>)
    ensures r == ListedProcesses(c.api.processes(c.projectID), c.atlasClusters)
  {
    var response := c.api.processes(c.projectID);
    if response.Err? {
      return Err(AsHTTPError(response.error));
    }
    var processes := response.value;
    if |c.atlasClusters| == 0 {
      return Ok(processes);
    }
    var filtered: seq<AtlasProcess> := [];
    var i := 0;
    while i < |c.atlasClusters|
      invariant 0 <= i <= |c.atlasClusters|
      invariant filtered == SelectAll(processes, c.atlasClusters[..i], Prefixes)
    {
      var clusterName := c.atlasClusters[i];
      var j := 0;
      while j < |processes|
        invariant 0 <= j <= |processes|
        invariant filtered == SelectAll(processes, c.atlasClusters[..i], Prefixes) + Select(processes[..j], clusterName, Prefixes)
      {
        assert processes[..j + 1][..j] == processes[..j];
        if clusterName <= processes[j].userAlias {
          filtered := filtered + [processes[j]];
        }
        j := j + 1;
      }
      assert processes[..j] == processes;
      assert c.atlasClusters[..i + 1][..i] == c.atlasClusters[..i];
      i := i + 1;
    }
    assert c.atlasClusters[..i] == c.atlasClusters;
    return Ok(filtered);
  }

  /** Without cluster names the listing is returned as is; with them, a
      process is returned exactly when some name prefixes its alias, as many
      times as names prefix it (times its occurrences in the listing), and
      the matches of earlier names come first. */
  lemma ListedProcessesFilter(ps: seq<AtlasProcess>, clusters: seq<string>, x: AtlasProcess, k: nat)
    requires k <= |clusters|
    ensures clusters == [] ==> ListedProcesses(Ok(ps), clusters) == Ok(ps)
    ensures clusters != [] ==>
      var r := ListedProcesses(Ok(ps), clusters).value;
      && (x in r <==> x in ps && exists c :: c in clusters && c <= x.userAlias)
      && multiset(r)[x] == multiset(ps)[x] * MatchCount(clusters, x, Prefixes)
      && FilterByClusters(ps, clusters[..k]) <= r
  {
    if clusters != [] {
      SelectAllSoundAndComplete(ps, clusters, Prefixes, x);
      SelectAllMultiplicity(ps, clusters, Prefixes, x);
      SelectAllKeyMajor(ps, clusters, Prefixes, k);
    }
  }

  /** A process two cluster names prefix is listed twice. */
  lemma DuplicateMatch(p: AtlasProcess, a: string, b: string)
    requires a <= p.userAlias && b <= p.userAlias
    ensures multiset(FilterByClusters([p], [a, b]))[p] == 2
  {
    SelectAllMultiplicity([p], [a, b], Prefixes, p);
    assert Prefixes(a, p) && Prefixes(b, p);
    assert [a, b][..1] == [a];
    assert [a][..0] == [];
    assert MatchCount([a], p, Prefixes) == 1;
    assert MatchCount([a, b], p, Prefixes) == 2;
    assert multiset([p])[p] == 1;
  }

  /** AtlasClient.ListDisks: the process's disks, or the failure as an HTTPError. */
  function ListDisks(c: AtlasClient, p: AtlasProcess): (r: Result<seq<AtlasDisk>, HTTPError>)
    ensures r.Err? <==> c.api.processDisks(c.projectID, p.hostname, p.port).Err?
    ensures r.Err? ==> r.error.statusCode == c.api.processDisks(c.projectID, p.hostname, p.port).error.statusCode
    ensures r.Ok? ==> r.value == c.api.processDisks(c.projectID, p.hostname, p.port).value
  {
    match c.api.processDisks(c.projectID, p.hostname, p.port)
    case Err(f) => Err(AsHTTPError(f))
    case Ok(disks) => Ok(disks)
  }

  // ------------------------------------------------------------ map building

  /** A measurement as the Get*Measurements loops store it: samples and unit,
      and no name. */
  function Unnamed(am: AtlasMeasurement): Measurement {
    Measurement("", am.dataPoints, am.units)
  }

  /** The key a record is stored under. */
  function KeyOf(am: AtlasMeasurement): MeasurementID {
    NewMeasurementID(am.name, am.units)
  }

  /** The map the Get*Measurements loops build: each record under
      NewMeasurementID(name, units), a later record replacing an earlier one. */
  function MeasurementsToMap(ms: seq<AtlasMeasurement>): map<MeasurementID, Measurement> {
    FillMap(ms, KeyOf, Unnamed)
  }

  /** The keys of the measurement map are exactly the records' IDs; the
      value under the ID of a record that no later record shares carries that
      record's samples and unit, and an empty name, so its own ID() is
      "_" + unit rather than its key. */
  lemma MeasurementsToMapEntries(ms: seq<AtlasMeasurement>)
    ensures forall i :: 0 <= i < |ms| ==> KeyOf(ms[i]) in MeasurementsToMap(ms)
    ensures forall k :: k in MeasurementsToMap(ms) ==> exists i :: 0 <= i < |ms| && KeyOf(ms[i]) == k
    ensures forall i :: 0 <= i < |ms| && (forall j :: i < j < |ms| ==> KeyOf(ms[j]) != KeyOf(ms[i])) ==>
      && MeasurementsToMap(ms)[KeyOf(ms[i])] == Unnamed(ms[i])
      && MeasurementsToMap(ms)[KeyOf(ms[i])].dataPoints == ms[i].dataPoints
      && MeasurementsToMap(ms)[KeyOf(ms[i])].units == ms[i].units
      && MeasurementsToMap(ms)[KeyOf(ms[i])].ID() == NewMeasurementID("", ms[i].units)
  {
    FillMapEntries(ms, KeyOf, Unnamed);
  }

  /** The metadata of one API record. */
  function MetadataOf(am: AtlasMeasurement): MeasurementMetadata {
    MeasurementMetadata(am.name, am.units)
  }

  /** The key a record's metadata is stored under: the metadata's ID(). */
  function MetadataKey(am: AtlasMeasurement): MeasurementID {
    MetadataOf(am).ID()
  }

  /** The map the metadata loops build: each record's name and unit under its ID(). */
  function MetadataMap(ms: seq<AtlasMeasurement>): map<MeasurementID, MeasurementMetadata> {
    FillMap(ms, MetadataKey, MetadataOf)
  }

  /** Every metadata entry sits under its own ID and comes from a record;
      every record's ID is a key; the map is empty exactly when there are no
      records. */
  lemma MetadataMapEntries(ms: seq<AtlasMeasurement>)
    ensures forall k :: k in MetadataMap(ms) ==> MetadataMap(ms)[k].ID() == k
    ensures forall k :: k in MetadataMap(ms) ==> exists i :: 0 <= i < |ms| && MetadataMap(ms)[k] == MetadataOf(ms[i])
    ensures forall i :: 0 <= i < |ms| ==> MetadataOf(ms[i]).ID() in MetadataMap(ms)
    ensures |MetadataMap(ms)| == 0 <==> |ms| == 0
  {
    FillMapEntries(ms, MetadataKey, MetadataOf);
    FillMapEmpty(ms, MetadataKey, MetadataOf);
    var m := MetadataMap(ms);
    forall k | k in m ensures m[k].ID() == k && exists i :: 0 <= i < |ms| && m[k] == MetadataOf(ms[i]) {
      var i := FillMapValue(ms, MetadataKey, MetadataOf, k);
      assert m[k] == MetadataOf(ms[i]) && MetadataKey(ms[i]) == k;
    }
  }

  /** The loop that turns a measurement list into a measurement map. */
  method BuildMeasurementMap(ms: seq<AtlasMeasurement>) returns (result: map<MeasurementID, Measurement>)
    ensures result == MeasurementsToMap(ms)
  {
    result := map[];
    var i := 0;
    while i < |ms|
      invariant 0 <= i <= |ms|
      invariant result == MeasurementsToMap(ms[..i])
    {
      var measurement := ms[i];
      var measurementID := NewMeasurementID(measurement.name, measurement.units);
      assert ms[..i + 1][..i] == ms[..i];
      result := result[measurementID := Measurement("", measurement.dataPoints, measurement.units)];
      i := i + 1;
    }
    assert ms[..i] == ms;
  }

  /** The loop that turns a measurement list into a metadata map. */
  method BuildMetadataMap(ms: seq<AtlasMeasurement>) returns (result: map<MeasurementID, MeasurementMetadata>)
    ensures result == MetadataMap(ms)
  {
    result := map[];
    var i := 0;
    while i < |ms|
      invariant 0 <= i <= |ms|
      invariant result == MetadataMap(ms[..i])
    {
      var metadata := MeasurementMetadata(ms[i].name, ms[i].units);
      assert ms[..i + 1][..i] == ms[..i];
      result := result[metadata.ID() := metadata];
      i := i + 1;
    }
    assert ms[..i] == ms;
  }

  // ------------------------------------------------------------ measurements

  /** The disk measurement response for a process's partition. */
  function DiskResponse(c: AtlasClient, p: Process, d: Disk): Result<seq<AtlasMeasurement>, ApiFailure> {
    c.api.processDiskMeasurements(c.projectID, p.base.hostname, p.port, d.partitionName)
  }

  /** The process measurement response for a process. */
  function ProcessResponse(c: AtlasClient, p: Process): Result<seq<AtlasMeasurement>, ApiFailure> {
    c.api.processMeasurements(c.projectID, p.base.hostname, p.port)
  }

  /** GetDiskMeasurements: on success the disk's measurements are replaced by
      the map of the response; on failure the disk is unchanged and the
      library's error is returned. */
  method GetDiskMeasurements(c: AtlasClient, p: Process, d: Disk) returns (err: Option<Failure>, disk: Disk)
    ensures err.Some? <==> DiskResponse(c, p, d).Err?
    ensures err.Some? ==> err.value == Plain(DiskResponse(c, p, d).error.err) && disk == d
    ensures err.None? ==> disk == d.(base := d.base.(measurements := MeasurementsToMap(DiskResponse(c, p, d).value)))
  {
    var response := DiskResponse(c, p, d);
    if response.Err? {
      return Some(Plain(response.error.err)), d;
    }
    var measurements := BuildMeasurementMap(response.value);
    return None, d.(base := d.base.(measurements := measurements));
  }

  /** GetProcessMeasurements: the map of the response, or the failure as an HTTPError. */
  method GetProcessMeasurements(c: AtlasClient, p: Process) returns (r: Result<map<MeasurementID, Measurement>, HTTPError>)
    ensures r.Err? <==> ProcessResponse(c, p).Err?
    ensures r.Err? ==> r.error == AsHTTPError(ProcessResponse(c, p).error)
    ensures r.Ok? ==> r.value == MeasurementsToMap(ProcessResponse(c, p).value)
  {
    var response := ProcessResponse(c, p);
    if response.Err? {
      return Err(AsHTTPError(response.error));
    }
    var measurements := BuildMeasurementMap(response.value);
    return Ok(measurements);
  }

  // ---------------------------------------------------------------- metadata

  /** GetDiskMeasurementsMetadata: the metadata map of the disk's response;
      the library's error; or an error when the response has no measurements. */
  method GetDiskMeasurementsMetadata(c: AtlasClient, p: Process, d: Disk) returns (r: Result<map<MeasurementID, MeasurementMetadata>, Failure>)
    ensures DiskResponse(c, p, d).Err? ==> r == Err(Plain(DiskResponse(c, p, d).error.err))
    ensures DiskResponse(c, p, d).Ok? && |DiskResponse(c, p, d).value| == 0 ==> r == Err(Plain(GoError(NoDiskMeasurementsMessage)))
    ensures DiskResponse(c, p, d).Ok? && |DiskResponse(c, p, d).value| > 0 ==> r == Ok(MetadataMap(DiskResponse(c, p, d).value))
  {
    var response := DiskResponse(c, p, d);
    if response.Err? {
      return Err(Plain(response.error.err));
    }
    var result := BuildMetadataMap(response.value);
    MetadataMapEntries(response.value);
    if |result| < 1 {
      return Err(Plain(GoError(NoDiskMeasurementsMessage)));
    }
    return Ok(result);
  }

  /** GetProcessMeasurementsMetadata: the process's metadata is first reset
      to an empty map, then filled from the response; a failed call returns
      its HTTPError, and an empty result an HTTPError with status code 0. */
  method GetProcessMeasurementsMetadata(c: AtlasClient, p: Process) returns (err: Option<HTTPError>, q: Process)
    ensures q == p.(base := q.base) && q.base == p.base.(metadata := q.base.metadata)
    ensures ProcessResponse(c, p).Err? ==> err == Some(AsHTTPError(ProcessResponse(c, p).error)) && q.base.metadata == map[]
    ensures ProcessResponse(c, p).Ok? ==> q.base.metadata == MetadataMap(ProcessResponse(c, p).value)
    ensures ProcessResponse(c, p).Ok? ==>
      (err.Some? <==> |ProcessResponse(c, p).value| == 0)
      && (err.Some? ==> err.value == HTTPError(0, GoError(NoProcessMeasurementsMessage)))
  {
    q := p.(base := p.base.(metadata := map[]));
    var response := ProcessResponse(c, p);
    if response.Err? {
      return Some(AsHTTPError(response.error)), q;
    }
    var metadata := map[];
    if |response.value| > 0 {
      metadata := BuildMetadataMap(response.value);
    }
    q := q.(base := q.base.(metadata := metadata));
    MetadataMapEntries(response.value);
    if |metadata| < 1 {
      return Some(HTTPError(0, GoError(NoProcessMeasurementsMessage))), q;
    }
    return None, q;
  }

  /** The empty-metadata error of GetProcessMeasurementsMetadata carries no
      status code, so its text is the bare message. */
  lemma EmptyProcessMetadataText()
    ensures ErrorText(HTTPError(0, GoError(NoProcessMeasurementsMessage))) == NoProcessMeasurementsMessage
  {
  }
}
