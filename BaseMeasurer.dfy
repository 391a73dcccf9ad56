/** measurer/base_measurer.go: the identity fields shared by process and
    disk measurers, their Prometheus labels, the conversion of measurement
    metadata into a metric description, and the derivation of the identity
    fields from an Atlas process record. */
module BaseMeasurer {
  import opened Wrappers
  import opened Strings
  import opened Prom
  import opened Measurements
  import opened Transformer
  import opened Atlas

  const DEFAULT_HELP: string := "Please see MongoDB Atlas documentation for details about the measurement"

  /** A metric the collectors report: its type, descriptor and the metadata it came from. */
  datatype PromMetric = PromMetric(valueType: ValueType, desc: Desc, metadata: MeasurementMetadata)

  /** Base: the measurements and metadata of one resource and the fields that identify it. */
  datatype Base = Base(
    measurements: map<MeasurementID, Measurement>,
    metadata: map<MeasurementID, MeasurementMetadata>,
    projectID: string,
    rsName: string,
    typeName: string,
    hostname: string,
    shardedCluster: string,
    projectName: string,
    processType: string,
    userAlias: string,
    id: string,
    promMetrics: seq<PromMetric>)

  /** A Base with only identity fields set, as a Go struct literal leaves the rest zero. */
  function IdentityBase(projectID: string, rsName: string, typeName: string, hostname: string,
                        shardedCluster: string, projectName: string, processType: string,
                        userAlias: string, id: string): Base
  {
    Base(map[], map[], projectID, rsName, typeName, hostname, shardedCluster, projectName, processType, userAlias, id, [])
  }

  /** PromVariableLabelValues: no variable labels, to keep cardinality low. */
  function PromVariableLabelValues(b: Base): (r: seq<string>)
    ensures r == []
  {
    []
  }

  /** PromVariableLabelNames: no variable labels. */
  function PromVariableLabelNames(b: Base): (r: seq<string>)
    ensures r == []
  {
    []
  }

  /** setPromMetrics replaces the metric list and nothing else. */
  function SetPromMetrics(b: Base, metrics: seq<PromMetric>): (r: Base)
    ensures r.promMetrics == metrics
    ensures r.(promMetrics := b.promMetrics) == b
  {
    b.(promMetrics := metrics)
  }

  /** The seven constant label names. */
  const ConstLabelNames: set<string> :=
    {"project_id", "rs_name", "user_alias", "process_state", "shared_cluster", "project_name", "process_type"}

  /** PromConstLabels: the seven identity labels. */
  function PromConstLabels(b: Base): (l: Labels)
    ensures l.Keys == ConstLabelNames
    ensures l["project_id"] == b.projectID && l["rs_name"] == b.rsName && l["user_alias"] == b.userAlias
    ensures l["process_state"] == b.typeName && l["shared_cluster"] == b.shardedCluster
    ensures l["project_name"] == b.projectName && l["process_type"] == b.processType
  {
    map[
      "project_id" := b.projectID,
      "rs_name" := b.rsName,
      "user_alias" := b.userAlias,
      "process_state" := b.typeName,
      "shared_cluster" := b.shardedCluster,
      "project_name" := b.projectName,
      "process_type" := b.processType
    ]
  }

  /** Base.PromInfoConstLabels: the same labels as PromConstLabels. */
  function PromInfoConstLabels(b: Base): (l: Labels)
    ensures l == PromConstLabels(b)
  {
    PromConstLabels(b)
  }

  /** Two bases with the same identity fields get the same labels. */
  lemma ConstLabelsDetermineIdentity(a: Base, b: Base)
    requires PromConstLabels(a) == PromConstLabels(b)
    ensures a.projectID == b.projectID && a.rsName == b.rsName && a.userAlias == b.userAlias
    ensures a.typeName == b.typeName && a.shardedCluster == b.shardedCluster
    ensures a.projectName == b.projectName && a.processType == b.processType
  {
    assert PromConstLabels(a)["project_id"] == PromConstLabels(b)["project_id"];
  }

  /** The error metadataToMetric returns when the name does not transform. */
  function NameErrorMessage(name: string): string {
    "can't transform measurement Name (" + name + ") into metric name"
  }

  /** metadataToMetric: a gauge whose descriptor is named from the metadata's
      transformed name, or an error naming the measurement. */
  function MetadataToMetric(md: MeasurementMetadata, namespace: string, collectorPrefix: string,
                            defaultHelp: string, variableLabels: seq<string>, constLabels: Labels): (r: Result<PromMetric, string>)
    ensures r.Err? <==> TransformName(md).1.Some?
    ensures r.Err? ==> r.error == NameErrorMessage(md.name)
    ensures r.Ok? ==> r.value.valueType == GaugeValue && r.value.metadata == md
    ensures r.Ok? ==> r.value.desc == Desc(BuildFQName(namespace, collectorPrefix, TransformName(md).0),
                                           HelpText(md.name, defaultHelp), variableLabels, constLabels)
  {
    var (promName, nameErr) := TransformName(md);
    if nameErr.Some? then Err(NameErrorMessage(md.name))
    else
      var (promType, typeErr) := TransformType(md);
      if typeErr.Some? then Err("can't transform measurement Units (" + md.units + ") into prometheus.ValueType")
      else Ok(PromMetric(promType, Desc(BuildFQName(namespace, collectorPrefix, promName),
                                        HelpText(md.name, defaultHelp), variableLabels, constLabels), md))
  }

  /** A metric converts exactly when the metadata has a name and a known unit,
      and its descriptor is named after the lower-cased name and the suffix. */
  lemma MetadataToMetricName(md: MeasurementMetadata, namespace: string, collectorPrefix: string,
                             defaultHelp: string, variableLabels: seq<string>, constLabels: Labels)
    ensures MetadataToMetric(md, namespace, collectorPrefix, defaultHelp, variableLabels, constLabels).Ok?
            <==> md.name != "" && md.units in Units.UnitsTransformationRules
    ensures var r := MetadataToMetric(md, namespace, collectorPrefix, defaultHelp, variableLabels, constLabels);
      r.Ok? ==> r.value.desc.fqName == BuildFQName(namespace, collectorPrefix,
                                                   Lower(md.name) + Units.UnitsTransformationRules[md.units].nameSuffix)
  {
    TablesAgree();
  }

  /** The split counts baseFromMongodbAtlasProcess indexes without checking:
      fewer parts make the Go code panic. */
  predicate Splittable(p: AtlasProcess) {
    |Split(p.replicaSetName, '-')| >= 3 && |Split(p.typeName, '_')| >= 2 && |Split(p.userAlias, '-')| >= 2
  }

  /** The process type read from a replica set name component: "shard"
      becomes "mongod", "config" becomes "configsvr", anything else (mongos
      included) is kept. */
  function ProcessTypeOf(component: string): (pt: string)
    ensures component == "shard" ==> pt == "mongod"
    ensures component == "config" ==> pt == "configsvr"
    ensures pt != "shard" && pt != "config"
    ensures component != "shard" && component != "config" ==> pt == component
  {
    var pt := component;
    var pt := if pt == "shard" then "mongod" else pt;
    var pt := if pt == "config" then "configsvr" else pt;
    if pt == "mongos" then "mongos" else pt
  }

  /** fmt.Sprintf(":%d", port) appended to the alias. */
  function AliasWithPort(alias: string, port: int): string {
    alias + ":" + Itoa(port)
  }

  /** baseFromMongodbAtlasProcess. */
  function BaseFromMongodbAtlasProcess(p: AtlasProcess): (b: Base)
    requires Splittable(p)
    ensures b.projectID == p.groupID && b.rsName == p.replicaSetName && b.hostname == p.hostname && b.id == p.id
    ensures b.userAlias == AliasWithPort(p.userAlias, p.port)
    ensures b.typeName == Split(p.typeName, '_')[1]
    ensures b.processType == ProcessTypeOf(Split(p.replicaSetName, '-')[2])
    ensures b.shardedCluster == Join(Split(p.replicaSetName, '-')[..2], "-")
    ensures b.projectName == Join(Split(p.userAlias, '-')[..2], "-")
    ensures b.measurements == map[] && b.metadata == map[] && b.promMetrics == []
  {
    var pt := ProcessTypeOf(Split(p.replicaSetName, '-')[2]);
    IdentityBase(p.groupID, p.replicaSetName, Split(p.typeName, '_')[1], p.hostname,
                 Join(Split(p.replicaSetName, '-')[..2], "-"), Join(Split(p.userAlias, '-')[..2], "-"),
                 pt, AliasWithPort(p.userAlias, p.port), p.id)
  }

  /** What the derived fields say about the Atlas record: the type name is
      the "_"-free component after the first "_"; the sharded cluster and
      project name are "-"-prefixes of the replica set name and the alias;
      the alias keeps the Atlas alias and ends with the port in decimal. */
  lemma BaseDerivation(p: AtlasProcess)
    requires Splittable(p)
    ensures var b := BaseFromMongodbAtlasProcess(p);
      && '_' !in b.typeName
      && Split(p.typeName, '_')[0] + "_" + b.typeName <= p.typeName
      && b.shardedCluster + "-" + Split(p.replicaSetName, '-')[2] <= p.replicaSetName
      && b.projectName <= p.userAlias
      && p.userAlias + ":" <= b.userAlias
      && (p.port >= 0 ==> DecimalValue(b.userAlias[|p.userAlias| + 1..]) == p.port)
  {
    TypeNameDerivation(p.typeName);
    ClusterDerivation(p.replicaSetName);
    SplitPrefixIsPrefix(p.userAlias, '-', 2);
    AliasDerivation(p.userAlias, p.port);
  }

  /** The type name is the "_"-free component after the first "_". */
  lemma TypeNameDerivation(t: string)
    requires |Split(t, '_')| >= 2
    ensures '_' !in Split(t, '_')[1] && Split(t, '_')[0] + "_" + Split(t, '_')[1] <= t
  {
    var tp := Split(t, '_');
    SplitPrefixIsPrefix(t, '_', 2);
    assert tp[..2][1..] == [tp[1]];
    assert Join(tp[..2], "_") == tp[0] + "_" + tp[1];
  }

  /** The sharded cluster, a "-" and the third component start the replica set name. */
  lemma ClusterDerivation(r: string)
    requires |Split(r, '-')| >= 3
    ensures Join(Split(r, '-')[..2], "-") + "-" + Split(r, '-')[2] <= r
  {
    var rp := Split(r, '-');
    SplitPrefixIsPrefix(r, '-', 3);
    assert rp[..3][1..] == [rp[1], rp[2]];
    assert rp[..3][1..][1..] == [rp[2]];
    assert rp[..2][1..] == [rp[1]];
    assert Join(rp[..3][1..], "-") == rp[1] + "-" + rp[2];
    assert Join(rp[..3], "-") == rp[0] + "-" + (rp[1] + "-" + rp[2]);
    assert Join(rp[..2], "-") == rp[0] + "-" + rp[1];
  }

  /** The alias keeps the Atlas alias and a ":", then the port in decimal. */
  lemma AliasDerivation(alias: string, port: int)
    ensures alias + ":" <= AliasWithPort(alias, port)
    ensures port >= 0 ==> DecimalValue(AliasWithPort(alias, port)[|alias| + 1..]) == port
  {
    if port >= 0 {
      ItoaOfNatural(port);
      assert AliasWithPort(alias, port)[|alias| + 1..] == Itoa(port);
    }
  }

  /** A member of shard n of cluster c1-c2 with Atlas type kind_role and an
      alias a1-a2-rest: it is a mongod of sharded cluster "c1-c2" in role
      `role`, in project "a1-a2". */
  lemma ShardMemberIdentity(p: AtlasProcess, c1: string, c2: string, n: string,
                            kind: string, role: string, a1: string, a2: string, rest: string)
    requires '-' !in c1 && '-' !in c2 && '-' !in n && '-' !in a1 && '-' !in a2
    requires '_' !in kind && '_' !in role
    requires p.replicaSetName == c1 + "-" + c2 + "-" + "shard" + "-" + n
    requires p.typeName == kind + "_" + role
    requires p.userAlias == a1 + "-" + a2 + "-" + rest
    ensures Splittable(p)
    ensures var b := BaseFromMongodbAtlasProcess(p);
      b.processType == "mongod" && b.typeName == role
      && b.shardedCluster == c1 + "-" + c2 && b.projectName == a1 + "-" + a2
  {
    TwoPieces(kind, role, '_');
    ReplicaSetPieces(c1, c2, n);
    AliasPieces(a1, a2, rest);
    ProcessTypeOfShard();
  }

  lemma ProcessTypeOfShard()
    ensures ProcessTypeOf("shard") == "mongod"
  {
  }

  lemma ReplicaSetPieces(c1: string, c2: string, n: string)
    requires '-' !in c1 && '-' !in c2 && '-' !in n
    ensures var rp := Split(c1 + "-" + c2 + "-" + "shard" + "-" + n, '-');
      |rp| == 4 && rp[2] == "shard" && Join(rp[..2], "-") == c1 + "-" + c2
  {
    var shard := "shard";
    assert '-' !in shard;
    FourPieces(c1, c2, shard, n, '-');
    var rp := [c1, c2, shard, n];
    assert rp[..2] == [c1, c2];
    assert rp[..2][1..] == [c2];
  }

  lemma AliasPieces(a1: string, a2: string, rest: string)
    requires '-' !in a1 && '-' !in a2
    ensures var ap := Split(a1 + "-" + a2 + "-" + rest, '-');
      |ap| >= 2 && Join(ap[..2], "-") == a1 + "-" + a2
  {
    var tail := Split(rest, '-');
    var y := a2 + "-" + rest;
    ConsPiece(a2, rest, '-', tail);
    ConsPiece(a1, y, '-', [a2] + tail);
    assert a1 + "-" + a2 + "-" + rest == a1 + "-" + y;
    var ap := [a1] + ([a2] + tail);
    assert ap[..2] == [a1, a2];
    assert ap[..2][1..] == [a2];
  }
}
