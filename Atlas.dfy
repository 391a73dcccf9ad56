/** The records the Atlas API client library returns, as the exporter reads
    them: processes, process disks and measurement lists. */
module Atlas {
  import opened Values

  /** mongodbatlas.Process: the fields the exporter reads. */
  datatype AtlasProcess = AtlasProcess(
    groupID: string,
    id: string,
    hostname: string,
    port: int,
    replicaSetName: string,
    typeName: string,
    userAlias: string,
    version: string)

  /** mongodbatlas.ProcessDisk. */
  datatype AtlasDisk = AtlasDisk(partitionName: string)

  /** mongodbatlas.Measurements: one named measurement with its unit and samples. */
  datatype AtlasMeasurement = AtlasMeasurement(name: string, units: string, dataPoints: seq<DataPoint>)
}
