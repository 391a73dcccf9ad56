# mongodbatlas_exporter core, modelled in Dafny

The exporter reads measurements of MongoDB Atlas processes and their disk
partitions through the Atlas HTTP API and serves them as Prometheus
metrics. This project models its core:

- **The unit catalog** (`Units`, and the copy in `Transformer`): the twelve
  Atlas unit symbols and, for each, the multiplier to the base unit and the
  suffix of the metric name.
- **Measurements** (`Measurements`, `MeasurementMaps`): the registry key
  `name_unit`, the metric name (the lower-cased name plus the unit's suffix,
  or an error message made of the clauses that apply), the metric type and
  the descriptor. The measurement map is a class that is updated in place.
- **The value selector** (`Values`, `GoSort`, `Timestamps`): it checks the
  samples, sorts them in place by (time, null first, value), scans from the
  end for the latest non-null value and scales it by the unit's multiplier.
- **Measurers** (`BaseMeasurer`, `DiskMeasurer`, `ProcessMeasurer`): the
  identity fields derived from an Atlas process record and the constant
  labels built from them.
- **The Atlas client** (`AtlasClient`, `HttpErrors`): listing processes with
  the cluster-name filter, listing disks, and building the measurement and
  metadata maps from the API's answers. The API itself is a parameter: one
  function per endpoint.
- **The collectors** (`CollectorCommon`, `DisksCollector`,
  `ProcessesCollector`, `ProcessCollector`):
  - the shared `up` gauge and the three counters;
  - `Describe` and `reportMeasurement`;
  - the scrape loops over disks, processes and one process;
  - how a process collector is built: attaching disks, fetching metadata and
    adding each disk metric only once.
  Collectors are classes whose counters the methods update. What a scrape
  sends on its channel is returned as a sequence.
- **The registry pass** (`ProcessRegisterer`): list the processes, build a
  collector for each one, record it under the process ID followed by its
  type name unless that key is already taken, and count a failed listing
  under its status code.
- **Helpers**: generic sequence and map helpers (`Collections`, `KeyedMaps`),
  strings (`Strings`), Prometheus names and samples (`Prom`), and the Atlas
  records (`Atlas`).

Each stateful method is proved against a specification function. The
properties that matter are lemmas about those functions:
- the order of the samples does not change the selected value;
- the comparator differs from a strict weak order only on pairs of nulls;
- a disk scrape sends a gauge or counts a failure for each (disk, metric)
  pair, and only one of the two;
- each process gets exactly one info gauge;
- each disk metric is added once per measurement ID;
- what the registry pass records, and that the pass as written panics at
  the first failed construction whose key is new.

Where the code is easy to misread, or does something other than its own
tests expect, the model follows the code:
- An unknown unit: `convertValue` (model/value.go:52-54) multiplies by Go's
  zero value 0 for it (`Units.Multiplier`). Only `PromName`
  (collector/transformer/name.go:15-28) rejects the unit, and it does so
  before any value is emitted.
- The transformation-failure counter is one unlabelled counter.
  collector/process_test.go:143-151 expects it labelled by `atlas_metric`
  and `error` instead. Beyond that:
  - `reportMeasurement` does not count missing data;
  - the disk loop counts every failure, missing data included
    (`DisksCollector.NoDataCountsAsFailure`).
- A failed fetch sets `up` to 0 and then straight to 1
  (collector/process.go:124-126, collector/disks.go:51-53). So every scrape
  ends with `up` at 1.
- registerer/process_registerer_test.go:20-21 and 65-90 expect the
  registerer to remove the collector of a vanished process and to add it
  again when the process returns. The registerer never deletes a key, and
  the model keeps removal out.
- A failed construction in the registry pass records nil and hands it to
  MustRegister, which panics (see Findings). The model corrects this to a
  pass that records only built collectors, so the next pass tries again.
  Elsewhere, retry after a delay exists only for building the Disks and
  Processes collectors at start-up (main.go:59-79 and 93-101).

## Model

| member | source | states |
|---|---|---|
| Units.NamedUnitsDistinct | model/model.go:6-19 | there are exactly twelve unit constants and their spellings are pairwise distinct |
| Units.NamedUnitSpellings | model/model.go:7-18 | each unit constant is spelled as its identifier |
| Units.UnknownUnitRepresentable | model/model.go:4 | a unit is any string, so a unit outside the catalog exists |
| Units.CatalogDomain | model/unit_conversion.go:12-25 | the conversion table covers exactly the twelve named units |
| Units.CatalogEntries | model/unit_conversion.go:13-24 | the multiplier and name suffix of each of the twelve units, as the table lists them |
| Units.MultipliersPositive | model/unit_conversion.go:13-24 | every multiplier in the table is strictly positive |
| Units.Multiplier | model/value.go:52-54 | the multiplier convertValue applies: positive for a known unit, and Go's zero value 0 when the map lookup misses |
| Transformer.TablesAgree | collector/transformer/common.go:13-26 | the collector package's copy of the unit table has the same domain as the model package's and agrees with it entry for entry |
| Transformer.TransformName | collector/transformer/name.go:13-32 | no error exactly when the name is non-empty and the unit known; the name is then the lower-cased name followed by the unit's suffix |
| Transformer.TransformNameAgreesWithPromName | collector/transformer/name.go:13-32 | TransformName on metadata returns the same name and the same error message as Measurement.PromName on the same name and unit |
| Transformer.TransformNameFailures | collector/transformer/name.go:22-31 | an empty name fails for every unit and its message starts with the name clause; an unknown unit fails for every name |
| Transformer.TransformType | collector/transformer/type.go:10-13 | every argument becomes a gauge and the call never fails |
| Transformer.TransformTypeAgreesWithPromType | collector/transformer/type.go:10-13 | TransformType gives the same type as Measurement.PromType, for a measurement and for metadata alike |
| Measurements.NewMeasurementID | model/measurement.go:39-41 | the identity is the name, one underscore and the unit, in that order and no more |
| Measurements.IDDeterminesNameAndUnit | model/measurement.go:39-41 | when neither name has an underscore, equal identities mean equal names and units |
| Measurements.IDCollision | model/measurement.go:39-41 | names with underscores can collide: ("A_B", "C") and ("A", "B_C") get the same identity |
| Measurements.PromName | model/measurement.go:65-84 | no error exactly when the name is non-empty and the unit known, with the lower-cased name plus the suffix (no delimiter); otherwise "" and a message of the name clause when the name is empty, followed by the unit clause when the unit is unknown |
| Measurements.PromNameMessage | model/measurement.go:74-83 | the error message starts with the name clause exactly when the name is empty, and ends with the unit clause exactly when the unit is unknown |
| Measurements.PromType | model/measurement.go:45-47 | every Atlas measurement is a gauge |
| Measurements.PromDesc | model/measurement.go:50-62 | an error exactly when PromName fails, with PromName's message; otherwise a descriptor under namespace and prefix with the help text, the given variable labels and no constant labels |
| Measurements.PromDescName | model/measurement.go:56-61 | a descriptor that builds has a non-empty name ending with the lower-cased measurement name and the unit's suffix |
| Measurements.PromNameExample | model/measurement.go:69-72 | "EXAMPLE_MeasuRemenT" in SCALAR becomes "example_measurement" with no error |
| Measurements.LowerExample | model/measurement.go:70 | lower-casing "EXAMPLE_MeasuRemenT" gives "example_measurement" |
| MeasurementMaps.MeasurementMap.constructor | model/measurementmap.go:13 | a new map is empty |
| MeasurementMaps.MeasurementMap.RegisterMeasurement | model/measurementmap.go:24-26 | the measurement is stored under its own ID, that entry is replaced, every other entry is kept, and the keys grow by that ID only |
| MeasurementMaps.MeasurementMap.RegisterAtlasMeasurement | model/measurementmap.go:15-22 | the Atlas record is stored under NewMeasurementID(name, units) as a measurement with the same name, samples and unit, whose own ID is that key |
| MeasurementMaps.RegisterGrowsByAtMostOne | model/measurementmap.go:24-26 | registering grows the map by at most one entry, and by none when the ID is already known |
| MeasurementMaps.LastRegistrationWins | model/measurementmap.go:25 | of two registrations under the same ID, the later one is what the map holds |
| Values.LessIsPrecedesUpToNulls | model/value.go:17-34 | the comparator passed to sort.Slice agrees with the strict order Precedes except on two null samples with the same time, where it answers true both ways |
| Values.PrecedesStrictWeakOrder | model/value.go:21-33 | Precedes is irreflexive, asymmetric and transitive, and its incomparability is transitive |
| Values.PrecedesIsStrictWeakOrder | model/value.go:21-33 | Precedes meets sort.Slice's requirement on a less function |
| Values.SortDataPoints | model/value.go:16-35 | the slice is sorted in place: afterwards no sample is followed by one that precedes it, and the samples are a permutation of the old ones |
| Values.FirstUnparsable | model/value.go:43-48 | no result exactly when every timestamp parses; otherwise the timestamp of a sample that does not parse, with every earlier one parsing |
| Values.Validation | model/value.go:37-50 | no error exactly when there are samples and all their timestamps parse; the "no data points" error exactly when there are no samples |
| Values.ContainsValidDataPoints | model/value.go:37-50 | the loop returns the "no data points" error, the parse error of the first bad timestamp, or nothing, as Validation decides |
| Values.ConvertValue | model/value.go:52-55 | the value times the unit's multiplier for a known unit, and 0 for an unknown one |
| Values.LatestIsMaximum | model/value.go:65-72 | the selection is the reading of some non-null sample that no other non-null reading exceeds in (time, value); it is absent only when every sample is null |
| Values.BelowTotalOrder | model/value.go:21-31 | among readings, "earlier, or the same time and smaller" is a strict total order |
| Values.LatestOrderIndependent | model/value.go:65-72 | the selected reading depends only on the multiset of samples |
| Values.PromValue | model/value.go:58-75 | an error exactly when validation fails, and then validation's error |
| Values.PromValueOrderIndependent | model/value.go:65-72 | permuting the samples changes neither whether PromVal succeeds, nor the value it returns, nor whether the error is "no data points" |
| Values.TrailingNulls | model/value.go:67-72 | null samples at the end do not change the selection |
| Values.LastNonNullIsLatest | model/value.go:67-71 | in sorted samples, the last non-null sample carries the selected reading |
| Values.PromVal | model/value.go:58-75 | the result is PromValue of the samples as they were before the call; on an error the slice is untouched; on success it is left sorted and permuted |
| Values.ScanLatest | model/value.go:67-74 | on sorted samples, the backward scan returns the selected reading's converted value, or 0 when every sample is null |
| Values.PromValOf | model/value.go:58-75 | PromVal on a copy of the samples returns PromValue of them |
| Values.PromValueNoSamples | model/value.go:38-42 | no samples gives the "no data points" error |
| Values.PromValueNullOnly | model/value.go:74 | only null samples give 0 |
| Values.PromValueScaled | model/value.go:67-71 | a value 2 in MILLISECONDS followed by a later null sample gives 0.002 |
| Values.PromValueOfPair | model/value.go:67-71 | two parsable samples of which the second is null give the first one's converted value |
| Values.PromValueBadTimestamp | model/value.go:43-48 | an empty timestamp gives a parse error that names it |
| GoSort.SortSlice | model/value.go:17 | for a strict weak order, sorts the array in place: afterwards sorted by the order and a permutation of the old contents |
| Timestamps.Parse | model/value.go:12 | a parsed time always has a month from 1 to 12, a day within that month (leap years included), and an hour, minute and second in range |
| Timestamps.ParseExactly | model/value.go:12 | a timestamp parses to an instant exactly when the instant has valid fields and a four-digit year and the timestamp is its rendering in the layout, the hour padded to two digits or, below 10, written with one |
| Timestamps.ShortHourParses | model/value.go:12 | "2021-03-04T6:53:06Z" and "2021-03-04T06:53:06Z" both parse to 2021-03-04 06:53:06 |
| Timestamps.TimeOf | model/value.go:18-19 | the parsed time of a timestamp that parses, and Go's zero time for one that does not |
| Timestamps.BeforeTotalOrder | model/value.go:21-22 | time.Before is a strict total order on instants |
| Timestamps.ParseExamples | model/value.go:44 | month 20 and the empty string do not parse; the two test timestamps parse, the first one minute earlier |
| Timestamps.BadMonthRejected | model/value.go:44 | "2021-20-04T16:53:06Z" does not parse |
| Timestamps.LaterMinuteLater | model/value.go:44 | 16:53:06 is before 16:54:06 on the same day |
| Timestamps.EarlyParses | model/value.go:44 | "2021-03-04T16:53:06Z" parses to 2021-03-04 16:53:06 |
| Timestamps.LateParses | model/value.go:44 | "2021-03-04T16:54:06Z" parses to 2021-03-04 16:54:06 |
| Strings.Lower | model/measurement.go:70 | same length; each upper-case ASCII letter is lowered and every other character kept |
| Strings.LowerIdempotent | model/measurement.go:70 | lower-casing twice is lower-casing once, and the result has no upper-case letter |
| Strings.Split | measurer/base_measurer.go:114 | at least one part, none containing the separator, and joining the parts with the separator gives the string back |
| Strings.SplitJoin | measurer/base_measurer.go:134-135 | splitting the join of separator-free parts gives the parts back |
| Strings.ItoaInjective | registerer/process_registerer.go:56 | distinct integers have distinct decimal spellings |
| Strings.DecimalRoundTrip | measurer/base_measurer.go:130 | reading back the decimal spelling of a natural number gives that number |
| HttpErrors.Unwrap | mongodbatlas/http_error.go:17-19 | the wrapped error, from which the HTTPError can be rebuilt with its status code |
| HttpErrors.ErrorText | mongodbatlas/http_error.go:21-26 | the bare message for a status code of 0 or less; otherwise the decimal code, ": " and the message |
| HttpErrors.ErrorTextShape | mongodbatlas/http_error.go:21-26 | the text always ends with the wrapped message; with a positive code it starts with the code's digits and ": " |
| HttpErrors.ErrorTextDistinguishesCodes | mongodbatlas/http_error.go:22-23 | for the same wrapped error, two positive status codes give the same text only when they are equal |
| Prom.BuildFQNameShape | model/measurement.go:56 | the full name is empty only for an empty name; otherwise it ends with the name, starts with the namespace and "_" when there is a namespace, and is the bare name without namespace and subsystem |
| Prom.BuildFQNameInjective | model/measurement.go:56 | under the same namespace and subsystem, equal full names mean equal names |
| BaseMeasurer.PromVariableLabelValues | measurer/base_measurer.go:48-50 | a base has no variable label values |
| BaseMeasurer.PromVariableLabelNames | measurer/base_measurer.go:55-57 | a base has no variable label names |
| BaseMeasurer.SetPromMetrics | measurer/base_measurer.go:59-61 | the metric list is replaced and every other field kept |
| BaseMeasurer.PromConstLabels | measurer/base_measurer.go:71-81 | exactly the seven identity labels, each holding its field ("process_state" holds the type name) |
| BaseMeasurer.PromInfoConstLabels | measurer/base_measurer.go:63-65 | the info labels of a base are its constant labels |
| BaseMeasurer.ConstLabelsDetermineIdentity | measurer/base_measurer.go:71-81 | equal constant labels mean equal identity fields |
| BaseMeasurer.MetadataToMetric | measurer/base_measurer.go:85-108 | an error naming the measurement exactly when the name does not transform; otherwise a gauge for that metadata whose descriptor is named from the transformed name, with the given help, labels and constant labels |
| BaseMeasurer.MetadataToMetricName | measurer/base_measurer.go:97-105 | metadata converts exactly when it has a name and a known unit, and the descriptor's name ends in the lower-cased name plus the unit's suffix |
| BaseMeasurer.ProcessTypeOf | measurer/base_measurer.go:114-123 | "shard" becomes "mongod", "config" becomes "configsvr", any other component (mongos included) is kept, so the result is never "shard" or "config" |
| BaseMeasurer.ProcessTypeOfShard | measurer/base_measurer.go:115-117 | a shard component gives the process type "mongod" |
| BaseMeasurer.BaseFromMongodbAtlasProcess | measurer/base_measurer.go:112-138 | project, replica set, host and ID are copied; the alias gets ":" and the port; the type name, process type, sharded cluster and project name come from the "_" and "-" parts; no measurements, metadata or metrics yet |
| BaseMeasurer.BaseDerivation | measurer/base_measurer.go:112-138 | the type name has no "_" and follows the first "_" of the Atlas type; the sharded cluster and the project name are "-"-prefixes of the replica set name and the alias; the alias keeps the Atlas alias and ends with the port in decimal |
| BaseMeasurer.TypeNameDerivation | measurer/base_measurer.go:131 | the second "_"-part has no "_" and, after the first part and a "_", starts the type |
| BaseMeasurer.ClusterDerivation | measurer/base_measurer.go:134 | the sharded cluster, a "-" and the third part start the replica set name |
| BaseMeasurer.AliasDerivation | measurer/base_measurer.go:130 | the alias with the port starts with the Atlas alias and ":", and for a non-negative port the rest reads back as the port |
| BaseMeasurer.ShardMemberIdentity | measurer/base_measurer.go:112-138 | a member of shard n of cluster c1-c2, Atlas type kind_role and alias a1-a2-rest splits, and is a mongod in role `role` of sharded cluster "c1-c2" in project "a1-a2" |
| DiskMeasurer.DiskConstLabels | measurer/disk_measurer.go:14-18 | the process's seven labels plus the partition label, which holds the partition name |
| DiskMeasurer.DiskLabelsSeparatePartitions | measurer/disk_measurer.go:14-18 | disks of the same process have equal labels exactly when they have the same partition |
| DiskMeasurer.DiskFromMongodbAtlasProcessDisk | measurer/disk_measurer.go:20-25 | the disk gets the base derived from its process and the partition name of the Atlas disk |
| DiskMeasurer.DiskInheritsProcessLabels | measurer/disk_measurer.go:15-22 | a disk's labels carry its process's project ID, replica set, alias with port, process type and its own partition |
| ProcessMeasurer.ProcessInfoConstLabels | measurer/process_measurer.go:18-23 | the seven base labels plus "version" and "type", which hold the version and the type name |
| ProcessMeasurer.InfoLabelsRepeatType | measurer/process_measurer.go:21 | the type name appears twice, under "type" and under "process_state" |
| ProcessMeasurer.ProcessFromMongodbAtlasProcess | measurer/process_measurer.go:28-44 | the identity fields copied, the type name whole, the alias with the port, the sharding fields empty, no disks, and the version and port kept |
| ProcessMeasurer.ProcessAndDiskShareIdentity | measurer/process_measurer.go:28-44 | a process and a disk built from the same record agree on project, replica set, alias, host and ID; the process keeps the full type and the disk only its second "_"-part |
| ProcessMeasurer.PortDistinguishesAlias | measurer/process_measurer.go:33-36 | two processes with the same alias and different non-negative ports get different aliases |
| AtlasClient.ListProcesses | mongodbatlas/mongodbatlas.go:62-84 | the API's failure as an HTTPError with its status code; otherwise the list as is without cluster names, or the processes each cluster name prefixes, name by name |
| AtlasClient.ListedProcessesFilter | mongodbatlas/mongodbatlas.go:72-83 | with cluster names, a process is returned exactly when some name prefixes its alias, as often as names prefix it times its occurrences, and earlier names' matches come first; without names the list is unchanged |
| AtlasClient.DuplicateMatch | mongodbatlas/mongodbatlas.go:76-82 | a process that two cluster names prefix is returned twice |
| AtlasClient.ListDisks | mongodbatlas/mongodbatlas.go:86-96 | an error exactly when the API call fails, carrying its status code; otherwise the API's disks |
| AtlasClient.MeasurementsToMapEntries | mongodbatlas/mongodbatlas.go:143-150 | the keys are exactly the records' IDs; under the ID of a record no later record shares sit its samples and unit with an empty name, so the stored value's own ID is "_" plus the unit |
| AtlasClient.MetadataMapEntries | mongodbatlas/mongodbatlas.go:176-182 | every metadata entry sits under its own ID and comes from a record, every record's ID is a key, and the map is empty exactly when there are no records |
| AtlasClient.BuildMeasurementMap | mongodbatlas/mongodbatlas.go:143-150 | the loop builds the measurement map of the records, later records replacing earlier ones |
| AtlasClient.BuildMetadataMap | mongodbatlas/mongodbatlas.go:201-207 | the loop builds the metadata map of the records |
| AtlasClient.GetDiskMeasurements | mongodbatlas/mongodbatlas.go:118-135 | an error exactly when the call fails, and then the disk is unchanged; otherwise only the disk's measurements are replaced, by the map of the answer |
| AtlasClient.GetProcessMeasurements | mongodbatlas/mongodbatlas.go:138-153 | the call's failure as an HTTPError, or the map of the answer |
| AtlasClient.GetDiskMeasurementsMetadata | mongodbatlas/mongodbatlas.go:156-185 | the call's error; the fixed "no disk measurements" error for an empty answer; otherwise the metadata map of the answer |
| AtlasClient.GetProcessMeasurementsMetadata | mongodbatlas/mongodbatlas.go:188-217 | only the metadata changes; it is emptied on a failed call, which returns its HTTPError; otherwise it is the map of the answer, and an empty answer is an error with status code 0 |
| AtlasClient.EmptyProcessMetadataText | mongodbatlas/mongodbatlas.go:210-214 | the empty-metadata error has no status code, so its text is the bare message |
| CollectorCommon.OwnDescsDistinct | collector/common.go:43-58 | the up gauge and the three counters have four different metric names |
| CollectorCommon.MeasurementDescsExactly | collector/common.go:78-86 | over an order that visits every known ID, a descriptor is sent exactly when some known measurement describes to it |
| CollectorCommon.MeasurementDescsBound | collector/common.go:78-86 | never more measurement descriptors than IDs visited |
| CollectorCommon.DescOfKnown | collector/common.go:79 | for a known ID, Describe sends the measurement's PromDesc when it succeeds, and nothing when it fails |
| CollectorCommon.ReportClassified | collector/common.go:90-123 | one gauge with the computed value and the extra labels exactly when description and value both transform, nothing otherwise; missing data is exactly a described measurement with no samples; the failure counter rises once for an unknown ID and once for a counted failure, so by at most two |
| CollectorCommon.ReportRegisters | collector/common.go:91-95 | an unknown measurement is registered under its ID and every known entry is kept |
| CollectorCommon.ReportAgain | collector/common.go:91-95 | reporting the same measurement again leaves the map as it is and sends the same thing, and only a counted failure is counted again |
| CollectorCommon.RegisteredKeyedMapIsCopied | collector/common.go:63-66 | when the supplied map is keyed by ID, the registered map equals it, whatever the iteration order |
| CollectorCommon.BasicCollector.constructor | collector/common.go:38-69 | gauge and counters at zero, no metrics, and every supplied measurement registered under its own ID, each entry being one of them |
| CollectorCommon.BasicCollector.Describe | collector/common.go:72-87 | the four own descriptors, then a descriptor for each known measurement whose PromDesc succeeds, in an iteration order that visits every known ID once |
| CollectorCommon.BasicCollector.ReportMeasurement | collector/common.go:90-123 | the map, the failure counter, the samples sent and the error are what ReportOf says; the other counters and the metrics are unchanged |
| DisksCollector.Disks.Collect | collector/disks.go:40-79 | one more scrape, up at 1, the failed scrapes added; each (disk, metric) pair sends its gauge or adds one transformation failure; then the gauge and the three counters with their new values |
| DisksCollector.TransformRows | collector/disks.go:56-78 | the loop sends each disk's row in order and counts the failures of all rows |
| DisksCollector.TransformRow | collector/disks.go:57-77 | the inner loop sends the disk's gauges in metric order and counts the metrics that send nothing |
| DisksCollector.TransformPair | collector/disks.go:58-76 | a missing measurement or a value that does not transform sends nothing; otherwise the gauge with the disk's four label values |
| DisksCollector.NewDisks | collector/disks.go:23-37 | the fixed initialisation error exactly when the metadata call fails; otherwise a fresh collector with the disks prefix, the four default labels, zero counters, the metadata registered and the metrics `newMetrics` builds from that metadata |
| DisksCollector.DiskAccounting | collector/disks.go:56-77 | the gauges sent plus the failures counted equal the number of (disk, metric) pairs |
| DisksCollector.DiskEmissionsExactly | collector/disks.go:56-77 | a gauge is sent exactly when it is the sample of some (disk, metric) pair |
| DisksCollector.DiskSampleShape | collector/disks.go:58-76 | a pair sends a sample exactly when the disk has the metric's measurement and its value transforms; the sample has the metric's descriptor and type, that value and the disk's four labels |
| DisksCollector.NoDataCountsAsFailure | collector/disks.go:64-69 | a disk measurement with no samples sends nothing and counts one failure |
| ProcessesCollector.Processes.Collect | collector/processes.go:48-77 | one more scrape, up at 1, the failed scrapes added, the transformation failures grown by what every (process, metric) call of `report` counts; each process's reported samples and info gauge, then up and two counters |
| ProcessesCollector.Processes.Describe | collector/processes.go:80-83 | the shared descriptors, then the info gauge vector's |
| ProcessesCollector.ReportProcesses | collector/processes.go:63-76 | the loop sends each process's block in order and adds up the transformation failures `report` counts for every process |
| ProcessesCollector.ReportProcess | collector/processes.go:64-75 | `report` for each metric in order, then the process's info gauge at 1, and the sum of the failures those calls count |
| ProcessesCollector.NoFailuresExactly | collector/processes.go:63-76 | a scrape counts no transformation failure exactly when no (process, metric) call of `report` counts one |
| ProcessesCollector.NewProcesses | collector/processes.go:24-45 | the metadata error unchanged; otherwise a fresh collector with the processes prefix, zero counters, the metadata registered, the metrics `newMetrics` builds from that metadata and an info vector over the given labels |
| ProcessesCollector.ProcessEmissionsExactly | collector/processes.go:63-76 | a sample is sent exactly when it is some process's info gauge or something `report` sends for one of its metrics |
| ProcessesCollector.OneInfoPerProcess | collector/processes.go:73-75 | when `report` never uses the info descriptor, the samples under it are one info gauge per process, in process order |
| ProcessCollector.AttachDisks | collector/process.go:42-55 | one disk per listed disk, in order, each with its metadata when the metadata call answers with some; the rest of the measurer unchanged |
| ProcessCollector.DedupDiskMetrics | collector/process.go:73-94 | the converted metrics of the disks' metadata keys, each key considered once through one seen-set |
| ProcessCollector.DiskMetricsExactly | collector/process.go:76-91 | a disk metric is added exactly when it is the converted metric of a key in some disk's metadata |
| ProcessCollector.MetricOptionSome | collector/process.go:81-88 | a key has a metric exactly when it is in the metadata and its metadata converts to that metric |
| ProcessCollector.DiskMetricsOncePerID | collector/process.go:74-80 | when the metadata is keyed by ID, no two disk metrics share a measurement ID |
| ProcessCollector.ProcessCollector.constructor | collector/process.go:96-105 | the collector holds the given bookkeeping, info descriptor and measurer, with the info gauge at 0 |
| ProcessCollector.ProcessCollector.Collect | collector/process.go:110-166 | one more scrape, up at 1, one scrape failure for the process fetch and one per failed disk fetch; the transformation failures grown by what every call of `report` counts; the measurer and disks refreshed; `report` for each metric, the info gauge at 1, each disk's keys reported; then up and two counters |
| ProcessCollector.ProcessCollector.Describe | collector/process.go:169-172 | the shared descriptors, then the info gauge's |
| ProcessCollector.ReportProcessMetrics | collector/process.go:130-136 | `report` on the measurer for each metric, in order, and the sum of the transformation failures those calls count |
| ProcessCollector.ScrapeFetched | collector/process.go:128-165 | the process metrics reported, the info gauge at 1, then each disk fetched and reported, with the failed disk fetches and the transformation failures of every `report` call counted |
| ProcessCollector.ScrapeDisk | collector/process.go:145-164 | the disk after its fetch, 1 when the fetch fails, and what `report` sends and counts for each of the disk's metadata keys |
| ProcessCollector.ScrapeDisks | collector/process.go:144-165 | the disks after their fetches, in order, the number of failed fetches, every disk's reports and the transformation failures they count |
| ProcessCollector.NoFailuresExactly | collector/process.go:130-164 | a scrape counts no transformation failure exactly when no call of `report`, for a process metric or for a disk's key, counts one |
| ProcessCollector.FetchedDisk | collector/process.go:145 | a fetch changes only the disk's measurements |
| ProcessCollector.NewProcessCollector | collector/process.go:28-108 | a failed disk listing aborts; unless it is a SHARD_MONGOS, one disk per listed disk; a failed or empty metadata fetch aborts; otherwise a fresh collector whose metrics are the process's own followed by the disk metrics, one per measurement ID |
| ProcessCollector.BuildCollector | collector/process.go:64-107 | a fresh collector over the measurer with zero counters, no default labels, the info descriptor over its constant labels, and its own metrics followed by the deduplicated disk metrics |
| ProcessCollector.FetchFailuresBound | collector/process.go:118-152 | a scrape counts at most one failure for the process and one per disk, and none exactly when every fetch succeeds |
| ProcessCollector.DisksReportsExactly | collector/process.go:144-165 | a sample of the disk loop is one `report` sends for some disk and one of its metadata keys |
| ProcessCollector.DiskVisitExactly | collector/process.go:153-164 | a sample of one disk visit is one `report` sends for one of the disk's keys |
| ProcessCollector.InfoSentOnce | collector/process.go:138-139 | when `report` never uses the info descriptor, a scrape sends exactly one sample under it: the info gauge at 1 |
| ProcessRegisterer.CollectorKey | registerer/process_registerer.go:68 | the registry key is the process ID followed directly by its type name, with no separator |
| ProcessRegisterer.StatusLabel | registerer/process_registerer.go:56 | the label is the status code in base 10: digits that read back to the code when it is not negative, a leading minus sign otherwise |
| ProcessRegisterer.Increment | registerer/process_registerer.go:56 | one more error under the status label, and every other label's count kept |
| ProcessRegisterer.StatusLabelsDistinct | registerer/process_registerer.go:56 | two listing errors are counted under the same label exactly when their status codes are equal |
| ProcessRegisterer.RecordedKeys | registerer/process_registerer.go:59-73 | a pass deletes and overwrites nothing and adds the key of every listed process and no other |
| ProcessRegisterer.RecordedFirst | registerer/process_registerer.go:68-72 | a new key holds what was built for the first listed process with that key, nil included |
| ProcessRegisterer.PanicsAtExactly | registerer/process_registerer.go:60-72 | the as-written pass panics in MustRegister at a turn exactly when that turn's construction failed and its key is neither in the map nor the key of an earlier listed process |
| ProcessRegisterer.CompletedPassRecordsNoNil | registerer/process_registerer.go:68-72 | an as-written pass that does not panic adds no nil: every new key holds a built collector |
| ProcessRegisterer.FailedProcessNeverRetried | registerer/process_registerer.go:60-72 | if registering nil did not panic, a process whose construction failed on the pass that first listed it would stay recorded as nil after any later pass |
| ProcessRegisterer.RetryingPassRecordsBuilt | registerer/process_registerer.go:60-72 | the corrected pass deletes and overwrites nothing and adds exactly the keys of listed processes whose collector was built, each holding one of them |
| ProcessRegisterer.RetryingLeavesFailedFree | registerer/process_registerer.go:60-72 | under the corrected pass, the key of a process whose every construction failed stays free for the next pass |
| ProcessRegisterer.Registerer.constructor | registerer/process_registerer.go:32-39 | the client, the shared error counter and an empty collector map |
| ProcessRegisterer.CounterVec.constructor | registerer/process_registerer.go:18-22 | the error counter starts with no labels |
| ProcessRegisterer.Registerer.RegisterAtlasProcesses | registerer/process_registerer.go:52-74 | a failed listing counts one error under its status label and lists nothing; a collector is built for each listed process, exactly when construction succeeds; the map gains the built collectors under new keys, the corrected pass of the Findings table |
| ProcessRegisterer.RegisterAll | registerer/process_registerer.go:59-73 | the loop builds for each process, in order, exactly when construction succeeds, and records each built collector under its key when the key is new |
| ProcessRegisterer.TryBuild | registerer/process_registerer.go:60 | a fresh collector with no scrapes exactly when construction succeeds, and nil otherwise |

## Left out

- `Timestamps.Parse`: models Go's `time.Parse` only for the fixed layout
  "2006-01-02T15:04:05Z", whole seconds only. A fraction after the seconds
  (".123"), which `time.Parse` accepts for this layout, is rejected, and
  instants carry no nanoseconds.
- Sample values are Dafny reals: float32 samples, float64 arithmetic,
  rounding and the NaN that PromVal's error path returns are not modelled.
- `strings.ToLower` is modelled on ASCII letters only (`Strings.Lower`).
- The Prometheus client library is modelled by values. Descriptors, gauges
  and counters are datatypes, and `BuildFQName` joins the non-empty parts
  with "_". `MustRegister` is not modelled.
- Channels: what Describe and Collect send is returned as a sequence.
- Concurrency is not modelled: the per-scrape goroutines, the `Observe`
  ticker loop and its wait are left out.
- main.go, logger.go and every log call are left out, since they only read
  configuration and write logs.
- The Atlas HTTP API is a parameter: one function per endpoint, answering
  with records or with a failure and its status code. Digest
  authentication, contexts, nil responses and the request counter in
  mongodbatlas/monitoring.go are left out.
- `report`, which the collectors call, is not shown in the source. It is a
  function parameter that returns what it sends and the transformation
  failures it counts (it hands its measurement to `reportMeasurement`,
  which counts them). Any other change it makes to the collector is not
  modelled.
- `report`'s error result is dropped: `Reporter` returns only the samples
  sent and the failures counted. So the model does not capture the path at
  collector/process.go:154-161.
  There a failed `metadataToMetric` leaves `metric` nil (modelled as None),
  `report` still runs, and if it then fails, line 160 reads `metric.Desc`
  through the nil pointer and panics.
- `newMetrics` is not shown in the source. The four-argument
  `newBasicCollector` that process.go calls computes it, so it is a
  function parameter of `NewProcessCollector`.
- `DisksCollector.NewDisks` and `ProcessesCollector.NewProcesses`: their
  metric lists are the parameter `newMetrics` applied to the metadata. The
  `newBasicCollector` they call (collector/common.go:38-69) has no metrics,
  and the version that builds them is not shown. So the model does not
  promise the one metric per metadata entry that the collector tests expect.
- Go panics become preconditions. The model requires what the code relies
  on without checking:
  - The replica set name needs three "-" parts, the type name two "_" parts
    and the alias two "-" parts (`BaseMeasurer.Splittable`). Fewer parts
    make the indexing at measurer/base_measurer.go:114-135 panic. This is a
    requirement of `BaseMeasurer.BaseFromMongodbAtlasProcess`,
    `ProcessCollector.NewProcessCollector`, `ProcessRegisterer.TryBuild`,
    `ProcessRegisterer.RegisterAll` and
    `ProcessRegisterer.Registerer.RegisterAtlasProcesses`, through
    `Constructible`.
  - The number of label values must equal the number of variable labels,
    or the label call panics. This is a requirement of
    `CollectorCommon.BasicCollector.ReportMeasurement` (`MustNewConstMetric`,
    collector/common.go:116-121), `DisksCollector.Disks.Collect`
    (`MustNewConstMetric`, collector/disks.go:71-76) and
    `ProcessesCollector.Processes.Collect` (`WithLabelValues`,
    collector/processes.go:72).
  The panics themselves are not modelled: no member says what happens on
  inputs that break these conditions. The one exception is the registry
  pass's panic on a nil collector, which `ProcessRegisterer.PanicsAt`
  models (see Findings).
- `transformer.TransformValue` (collector/transformer/value.go) is not part
  of this model. The disk loop computes values with `PromValue`, whose
  validation, sort and scan that package's tests exercise.
- Versions drift between the core files. disks.go and processes.go call the
  client without arguments and read `c.metrics` and `c.atlasScrapeFailures`,
  which common.go's `basicCollector` does not declare. The model gives
  `BasicCollector` a `metrics` field and maps those failures onto
  `scrapeFailures`. The collectors take the client's answers as parameters.
- The tests in registerer/process_registerer_test.go:65-90, and some
  collector tests, expect things the code does not do: removal and
  re-election of collectors, a three-argument constructor, and other label
  and counter values. The model follows the code.
- Go map iteration order is unspecified. Describe, the disk-metric pass and
  the disk loop choose keys with `:|` and expose the order they used as a
  ghost result.
- `Values.SortDataPoints`: sorts by `Precedes`, not by the comparator Go
  passes. That comparator is not a strict weak order on two null samples
  with the same time (`Values.LessIsPrecedesUpToNulls`), so `sort.Slice`'s
  outcome on such inputs is unspecified. Every sorted permutation gives
  PromVal the same result (`Values.PromValueOrderIndependent`).
- The collectors call `Values.PromValOf`, which sorts a copy, while
  `Measurement.PromVal` in Go sorts the aliased `DataPoints` slice in
  place. `Values.PromVal` models the in-place sort. The caller does not
  observe the order, by order independence.
- Measurers are modelled as values, copied where Go shares a pointer. The
  collector's measurer field is reassigned after each fetch.
- Error values are modelled by their structure (`ReportError`,
  `ValueError`, `Failure`), not by their `fmt` and `errors.Wrap` text. The
  exception is the fixed messages, such as the PromName clauses and the
  HTTPError text.
- The `up` gauge's momentary 0 on a failed fetch is not observable, because
  the code sets it to 1 straight after. Only the final value is stated.
- `ProcessRegisterer.MetadataScrapeName`: carries no contract. It only
  builds the counter vector's name.
- The registry key is the ID followed by the type name with no separator,
  so two different (ID, type) pairs can share a key. The model keeps that
  key as it is.
- `strconv.FormatInt(n, 10)` is modelled by `Strings.Itoa`, which spells
  an int the same way.

## Findings

| source | as written | input that shows it | evidently intended | confidence | as-written member | corrected member |
|---|---|---|---|---|---|---|
| registerer/process_registerer.go:60-72 | when NewProcessCollector fails, the loop records nil under the process's key and then panics in MustRegister: registering calls Describe, which reads the nil collector's fields (collector/process.go:170), so the exporter stops | a process whose collector construction fails on the pass that first lists it, for example because its disk listing returns an error | record and register only collectors that were built, so that a later pass that lists the process builds it again | not executed | ProcessRegisterer.PanicsAtExactly | ProcessRegisterer.RetryingPassRecordsBuilt |
