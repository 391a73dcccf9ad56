/** measurer/process_measurer.go: an Atlas process with its disks, version
    and port, and the labels of its info metric. */
module ProcessMeasurer {
  import opened Strings
  import opened Prom
  import opened Atlas
  import opened BaseMeasurer
  import opened DiskMeasurer

  /** Process: the base, the process's disks, its version and port. */
  datatype Process = Process(base: Base, disks: seq<Disk>, version: string, port: int)

  /** The label names of a process's info metric. */
  const InfoLabelNames: set<string> := ConstLabelNames + {"version", "type"}

  /** Process.PromInfoConstLabels: the base labels plus version and type. */
  function ProcessInfoConstLabels(p: Process): (l: Labels)
    ensures l.Keys == InfoLabelNames
    ensures l["version"] == p.version && l["type"] == p.base.typeName
    ensures forall k :: k in ConstLabelNames ==> l[k] == PromConstLabels(p.base)[k]
  {
    var labels := PromInfoConstLabels(p.base);
    var labels := labels["version" := p.version];
    labels["type" := p.base.typeName]
  }

  /** The info labels carry the type twice, once under "process_state" and once under "type". */
  lemma InfoLabelsRepeatType(p: Process)
    ensures ProcessInfoConstLabels(p)["type"] == ProcessInfoConstLabels(p)["process_state"]
  {
  }

  /** ProcessFromMongodbAtlasProcess: the identity fields copied verbatim
      (the type name whole, unlike the disk base), the port appended to the
      alias, no disks, and the sharding fields left empty. */
  function ProcessFromMongodbAtlasProcess(p: AtlasProcess): (r: Process)
    ensures r.base == IdentityBase(p.groupID, p.replicaSetName, p.typeName, p.hostname, "", "", "",
                                   AliasWithPort(p.userAlias, p.port), p.id)
    ensures r.disks == [] && r.version == p.version && r.port == p.port
  {
    Process(IdentityBase(p.groupID, p.replicaSetName, p.typeName, p.hostname, "", "", "",
                         AliasWithPort(p.userAlias, p.port), p.id), [], p.version, p.port)
  }

  /** A process and a disk built from the same record agree on project,
      replica set, alias, host and ID; the process keeps Atlas's full type
      name while the disk keeps only its role part. */
  lemma ProcessAndDiskShareIdentity(p: AtlasProcess, disk: AtlasDisk)
    requires Splittable(p)
    ensures var pr := ProcessFromMongodbAtlasProcess(p).base;
      var d := DiskFromMongodbAtlasProcessDisk(p, disk).base;
      && pr.projectID == d.projectID && pr.rsName == d.rsName && pr.userAlias == d.userAlias
      && pr.hostname == d.hostname && pr.id == d.id
      && pr.typeName == p.typeName && d.typeName == Split(p.typeName, '_')[1]
  {
  }

  /** Two processes from the same record with different ports get different aliases. */
  lemma {:induction false} PortDistinguishesAlias(p: AtlasProcess, q: AtlasProcess)
    requires p.userAlias == q.userAlias && p.port >= 0 && q.port >= 0 && p.port != q.port
    ensures ProcessFromMongodbAtlasProcess(p).base.userAlias != ProcessFromMongodbAtlasProcess(q).base.userAlias
  {
    var a, b := AliasWithPort(p.userAlias, p.port), AliasWithPort(q.userAlias, q.port);
    ItoaOfNatural(p.port);
    ItoaOfNatural(q.port);
    assert a[|p.userAlias| + 1..] == Itoa(p.port);
    assert b[|q.userAlias| + 1..] == Itoa(q.port);
  }
}
