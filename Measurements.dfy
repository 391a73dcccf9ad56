/** Atlas measurements and their Prometheus identity (model/measurement.go):
    the registry key, the metric type, the metric name with its two error
    clauses, and the descriptor. */
module Measurements {
  import opened Wrappers
  import opened Strings
  import opened Units
  import opened Values
  import opened Prom

  /** The registry key of a measurement. */
  type MeasurementID = string

  /** NewMeasurementID(name, units): the name, "_", and the unit symbol. */
  function NewMeasurementID(name: string, units: string): (id: MeasurementID)
    ensures |id| == |name| + 1 + |units|
    ensures id[..|name|] == name && id[|name|] == '_' && id[|name| + 1..] == units
  {
    name + "_" + units
  }

  /** One measurement: a name, its samples and their unit. */
  datatype Measurement = Measurement(name: string, dataPoints: seq<DataPoint>, units: UnitEnum) {
    /** Measurement.ID. */
    function ID(): MeasurementID {
      NewMeasurementID(name, units)
    }
  }

  /** The name and unit of a measurement as its metadata (model.MeasurementMetadata). */
  datatype MeasurementMetadata = MeasurementMetadata(name: string, units: UnitEnum) {
    function ID(): MeasurementID {
      NewMeasurementID(name, units)
    }
  }

  /** All measurements of one disk partition, with the labels that identify it. */
  datatype DiskMeasurements = DiskMeasurements(projectID: string, rsName: string, userAlias: string,
                                               partitionName: string, measurements: map<MeasurementID, Measurement>)

  /** All measurements of one process, with the labels that identify it. */
  datatype ProcessMeasurements = ProcessMeasurements(projectID: string, rsName: string, userAlias: string,
                                                     version: string, typeName: string,
                                                     measurements: map<MeasurementID, Measurement>)

  /** The identity splits back into name and unit whenever the name has no
      underscore: distinct (name, unit) pairs then never collide. */
  lemma IDDeterminesNameAndUnit(a: Measurement, b: Measurement)
    requires '_' !in a.name && '_' !in b.name
    requires a.ID() == b.ID()
    ensures a.name == b.name && a.units == b.units
  {
  }

  /** Names with underscores can collide with another (name, unit) split. */
  lemma IDCollision()
    ensures Measurement("A_B", [], "C").ID() == Measurement("A", [], "B_C").ID()
  {
  }

  /** PromName joins name and suffix with no delimiter. */
  const nameDelimiter: string := ""

  const DefaultHelp: string := "Please see MongoDB Atlas documentation for details about the measurement"

  /** The name clause of PromName's error message. */
  function NameClause(name: string): string {
    "Can't transform name '" + name + "', it seems to be invalid. "
  }

  /** The unit clause of PromName's error message. */
  function UnitClause(units: string): string {
    "Can't find suffix for unit '" + units + "', the unit type seems to be unknown."
  }

  /** PromName (and TransformName): the lower-cased name followed by the
      unit's suffix, or "" and an error message made of the clauses that apply,
      name clause first. */
  function PromName(name: string, units: UnitEnum): (r: (string, Option<string>))
    ensures r.1.None? <==> name != "" && KnownUnit(units)
    ensures r.1.None? ==> r.0 == Lower(name) + UnitsTransformationRules[units].nameSuffix
    ensures r.1.Some? ==> r.0 == ""
    ensures r.1.Some? ==>
      r.1.value == (if name == "" then NameClause(name) else "") + (if !KnownUnit(units) then UnitClause(units) else "")
  {
    var emptyName := |name| < 1;
    var knownUnit := units in UnitsTransformationRules;
    if !emptyName && knownUnit then
      var suffix := UnitsTransformationRules[units].nameSuffix;
      JoinPair(Lower(name), suffix, nameDelimiter);
      (Join([Lower(name), suffix], nameDelimiter), None)
    else
      // The message starts empty and gains each clause that applies.
      var nameClause := if emptyName then NameClause(name) else "";
      var unitClause := if !knownUnit then UnitClause(units) else "";
      ("", Some(nameClause + unitClause))
  }

  /** The error message names exactly the failing conditions: it starts with
      the name clause iff the name is empty and ends with the unit clause iff
      the unit is unknown. */
  lemma PromNameMessage(name: string, units: UnitEnum)
    requires PromName(name, units).1.Some?
    ensures var msg := PromName(name, units).1.value;
      && (NameClause("") <= msg <==> name == "")
      && ((|msg| >= |UnitClause(units)| && msg[|msg| - |UnitClause(units)|..] == UnitClause(units)) <==> !KnownUnit(units))
  {
    var n, u := NameClause(""), UnitClause(units);
    assert n[6] == 't' && u[6] != 't';
    ClauseMessage(name == "", !KnownUnit(units), n, u);
  }

  /** Measurement.PromType: every Atlas measurement is a gauge. */
  function PromType(m: Measurement): (t: ValueType)
    ensures t == GaugeValue
  {
    GaugeValue
  }

  /** The help text of a measurement's descriptor. */
  function HelpText(name: string, help: string): string {
    "Original measurements.name: '" + name + "'. " + help
  }

  /** Measurement.PromDesc: the descriptor under namespace and prefix, with
      the given variable labels and no constant labels, or PromName's error. */
  function PromDesc(m: Measurement, namespace: string, prefix: string, variableLabels: seq<string>): (r: Result<Desc, string>)
    ensures r.Err? <==> PromName(m.name, m.units).1.Some?
    ensures r.Err? ==> r.error == PromName(m.name, m.units).1.value
    ensures r.Ok? ==> r.value == Desc(BuildFQName(namespace, prefix, PromName(m.name, m.units).0),
                                      HelpText(m.name, DefaultHelp), variableLabels, map[])
  {
    var (promName, err) := PromName(m.name, m.units);
    if err.Some? then Err(err.value)
    else Ok(Desc(BuildFQName(namespace, prefix, promName), HelpText(m.name, DefaultHelp), variableLabels, map[]))
  }

  /** A descriptor that builds always carries a non-empty metric name that
      ends with the lower-cased measurement name and the unit's suffix. */
  lemma PromDescName(m: Measurement, namespace: string, prefix: string, variableLabels: seq<string>)
    requires PromDesc(m, namespace, prefix, variableLabels).Ok?
    ensures var d := PromDesc(m, namespace, prefix, variableLabels).value;
      var tail := Lower(m.name) + UnitsTransformationRules[m.units].nameSuffix;
      d.fqName != "" && d.fqName[|d.fqName| - |tail|..] == tail && d.constLabels == map[]
  {
    BuildFQNameShape(namespace, prefix, PromName(m.name, m.units).0);
  }

  /** The transformer test example: "EXAMPLE_MeasuRemenT" in SCALAR becomes "example_measurement". */
  lemma PromNameExample()
    ensures PromName("EXAMPLE_MeasuRemenT", SCALAR) == ("example_measurement", None)
  {
    LowerExample();
    CatalogEntries();
    assert KnownUnit(SCALAR);
    assert "example_measurement" + "" == "example_measurement";
  }

  lemma LowerExample()
    ensures Lower("EXAMPLE_MeasuRemenT") == "example_measurement"
  {
    var l := Lower("EXAMPLE_MeasuRemenT");
    assert forall i | 0 <= i < |l| :: l[i] == "example_measurement"[i];
  }
}
