/** collector/transformer: a second copy of the unit catalog and the name and
    type transformations applied to measurement metadata. */
module Transformer {
  import opened Wrappers
  import opened Strings
  import opened Units
  import opened Prom
  import opened Measurements

  /** The collector package's own copy of the unit catalog. */
  const TransformerRules: map<UnitEnum, Rule> := map[
    PERCENT := Rule(1.0, "_percent"),
    MILLISECONDS := Rule(0.001, "_seconds"),
    SECONDS := Rule(1.0, "_seconds"),
    BYTES := Rule(1.0, "_bytes"),
    KILOBYTES := Rule(1024.0, "_bytes"),
    MEGABYTES := Rule(1024.0 * 1024.0, "_bytes"),
    GIGABYTES := Rule(1024.0 * 1024.0 * 1024.0, "_bytes"),
    BYTES_PER_SECOND := Rule(1.0, "_bytes_ratio"),
    MEGABYTES_PER_SECOND := Rule(1024.0 * 1024.0, "_bytes_ratio"),
    GIGABYTES_PER_HOUR := Rule(1024.0 * 1024.0 * 1024.0, "_bytes_ratio_rate1h"),
    SCALAR_PER_SECOND := Rule(1.0, "_ratio"),
    SCALAR := Rule(1.0, "")
  ]

  /** ErrNoData, the transformer's "no datapoints are available". */
  const ErrNoData: string := "no datapoints are available"

  /** The two copies of the catalog agree entry for entry. */
  lemma TablesAgree()
    ensures forall u :: u in TransformerRules <==> u in UnitsTransformationRules
    ensures forall u :: u in TransformerRules ==> TransformerRules[u] == UnitsTransformationRules[u]
  {
  }

  /** TransformName on metadata: the lower-cased name and the unit suffix
      from this package's catalog, or "" and the clauses that apply. */
  function TransformName(md: MeasurementMetadata): (r: (string, Option<string>))
    ensures r.1.None? <==> md.name != "" && md.units in TransformerRules
    ensures r.1.None? ==> r.0 == Lower(md.name) + TransformerRules[md.units].nameSuffix
  {
    var emptyName := |md.name| < 1;
    var knownUnit := md.units in TransformerRules;
    if !emptyName && knownUnit then
      (Lower(md.name) + TransformerRules[md.units].nameSuffix, None)
    else
      var msg := if emptyName then NameClause(md.name) else "";
      var msg := if !knownUnit then msg + UnitClause(md.units) else msg;
      ("", Some(msg))
  }

  /** TransformName on metadata answers exactly as PromName does on a
      measurement with the same name and unit, message included. */
  lemma TransformNameAgreesWithPromName(md: MeasurementMetadata)
    ensures TransformName(md) == PromName(md.name, md.units)
  {
    TablesAgree();
    var n, u := NameClause(md.name), UnitClause(md.units);
    assert "" + n == n && n + "" == n && "" + u == u;
    assert KnownUnit(md.units) <==> md.units in TransformerRules;
  }

  /** An empty name fails for every unit; an unknown unit fails for every name. */
  lemma TransformNameFailures(md: MeasurementMetadata)
    ensures md.name == "" ==> TransformName(md) == ("", Some(NameClause("") + (if md.units in TransformerRules then "" else UnitClause(md.units))))
    ensures md.units !in TransformerRules ==> TransformName(md).0 == "" && TransformName(md).1.Some?
  {
    assert NameClause("") + "" == NameClause("");
  }

  /** TransformType: every measurement is a gauge and the call never fails,
      whatever its argument. */
  function TransformType<T>(x: T): (r: (ValueType, Option<string>))
    ensures r == (GaugeValue, None)
  {
    (GaugeValue, None)
  }

  /** TransformType agrees with Measurement.PromType. */
  lemma TransformTypeAgreesWithPromType(m: Measurement, md: MeasurementMetadata)
    ensures TransformType(m).0 == PromType(m) && TransformType(md) == TransformType(m)
  {
  }
}
