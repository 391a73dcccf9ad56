/** measurer/disk_measurer.go: a disk partition of an Atlas process, labelled
    like its process plus its partition name. */
module DiskMeasurer {
  import opened Prom
  import opened Atlas
  import opened BaseMeasurer

  /** The label name as the exporter spells it. */
  const PartitionLabel: string := "paritition_name"

  /** Disk: the base of the owning process and the partition it measures. */
  datatype Disk = Disk(base: Base, partitionName: string)

  /** Disk.PromConstLabels: the process's labels plus the partition name. */
  function DiskConstLabels(d: Disk): (l: Labels)
    ensures l.Keys == ConstLabelNames + {PartitionLabel}
    ensures l[PartitionLabel] == d.partitionName
    ensures forall k :: k in ConstLabelNames ==> l[k] == PromConstLabels(d.base)[k]
  {
    PromConstLabels(d.base)[PartitionLabel := d.partitionName]
  }

  /** Disks of one process differ in their labels exactly when their partitions differ. */
  lemma DiskLabelsSeparatePartitions(d: Disk, e: Disk)
    requires d.base == e.base
    ensures DiskConstLabels(d) == DiskConstLabels(e) <==> d.partitionName == e.partitionName
  {
    if DiskConstLabels(d) == DiskConstLabels(e) {
      assert DiskConstLabels(d)[PartitionLabel] == DiskConstLabels(e)[PartitionLabel];
    }
  }

  /** DiskFromMongodbAtlasProcessDisk: the process's base and the disk's partition. */
  function DiskFromMongodbAtlasProcessDisk(p: AtlasProcess, disk: AtlasDisk): (d: Disk)
    requires Splittable(p)
    ensures d.base == BaseFromMongodbAtlasProcess(p)
    ensures d.partitionName == disk.partitionName
  {
    Disk(BaseFromMongodbAtlasProcess(p), disk.partitionName)
  }

  /** Disks built from the same process carry that process's identity labels. */
  lemma DiskInheritsProcessLabels(p: AtlasProcess, disk: AtlasDisk)
    requires Splittable(p)
    ensures var l := DiskConstLabels(DiskFromMongodbAtlasProcessDisk(p, disk));
      var b := BaseFromMongodbAtlasProcess(p);
      l["project_id"] == p.groupID && l["rs_name"] == p.replicaSetName
      && l["user_alias"] == AliasWithPort(p.userAlias, p.port)
      && l[PartitionLabel] == disk.partitionName && l["process_type"] == b.processType
  {
  }
}
