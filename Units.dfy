/** The unit symbols Atlas reports (model/model.go) and the unit catalog that
    maps each to a value multiplier and a metric-name suffix
    (model/unit_conversion.go). */
module Units {

  /** An open string type: any string the Atlas API sends is representable,
      not only the twelve named constants. */
  type UnitEnum = string

  const PERCENT: UnitEnum := "PERCENT"
  const MILLISECONDS: UnitEnum := "MILLISECONDS"
  const SECONDS: UnitEnum := "SECONDS"
  const BYTES: UnitEnum := "BYTES"
  const KILOBYTES: UnitEnum := "KILOBYTES"
  const MEGABYTES: UnitEnum := "MEGABYTES"
  const GIGABYTES: UnitEnum := "GIGABYTES"
  const BYTES_PER_SECOND: UnitEnum := "BYTES_PER_SECOND"
  const MEGABYTES_PER_SECOND: UnitEnum := "MEGABYTES_PER_SECOND"
  const GIGABYTES_PER_HOUR: UnitEnum := "GIGABYTES_PER_HOUR"
  const SCALAR_PER_SECOND: UnitEnum := "SCALAR_PER_SECOND"
  const SCALAR: UnitEnum := "SCALAR"

  /** The named constants in declaration order. */
  const NamedUnits: seq<UnitEnum> := [PERCENT, MILLISECONDS, SECONDS, BYTES, KILOBYTES, MEGABYTES,
    GIGABYTES, BYTES_PER_SECOND, MEGABYTES_PER_SECOND, GIGABYTES_PER_HOUR, SCALAR_PER_SECOND, SCALAR]

  /** One catalog entry: the factor that brings a value to its base unit and the name suffix. */
  datatype Rule = Rule(valueMultiplier: real, nameSuffix: string)

  /** math.Pow(1024, 2) and math.Pow(1024, 3). */
  const KiB: real := 1024.0
  const MiB: real := KiB * KiB
  const GiB: real := KiB * KiB * KiB

  const UnitsTransformationRules: map<UnitEnum, Rule> := map[
    PERCENT := Rule(1.0, "_percent"),
    MILLISECONDS := Rule(0.001, "_seconds"),
    SECONDS := Rule(1.0, "_seconds"),
    BYTES := Rule(1.0, "_bytes"),
    KILOBYTES := Rule(KiB, "_bytes"),
    MEGABYTES := Rule(MiB, "_bytes"),
    GIGABYTES := Rule(GiB, "_bytes"),
    BYTES_PER_SECOND := Rule(1.0, "_bytes_ratio"),
    MEGABYTES_PER_SECOND := Rule(MiB, "_bytes_ratio"),
    GIGABYTES_PER_HOUR := Rule(GiB, "_bytes_ratio_rate1h"),
    SCALAR_PER_SECOND := Rule(1.0, "_ratio"),
    SCALAR := Rule(1.0, "")
  ]

  predicate KnownUnit(u: UnitEnum) {
    u in UnitsTransformationRules
  }

  /** The multiplier convertValue applies: the catalog's, or Go's zero value 0
      when the unit is missing from the map. */
  function Multiplier(u: UnitEnum): (r: real)
    ensures KnownUnit(u) ==> r > 0.0
    ensures !KnownUnit(u) ==> r == 0.0
  {
    if u in UnitsTransformationRules then UnitsTransformationRules[u].valueMultiplier else 0.0
  }

  /** There are exactly twelve named units and no two share a spelling. */
  lemma NamedUnitsDistinct()
    ensures |NamedUnits| == 12
    ensures forall i, j :: 0 <= i < j < |NamedUnits| ==> NamedUnits[i] != NamedUnits[j]
  {
  }

  /** Each constant is spelled as its identifier. */
  lemma NamedUnitSpellings()
    ensures PERCENT == "PERCENT" && MILLISECONDS == "MILLISECONDS" && SECONDS == "SECONDS"
    ensures BYTES == "BYTES" && KILOBYTES == "KILOBYTES" && MEGABYTES == "MEGABYTES"
    ensures GIGABYTES == "GIGABYTES" && BYTES_PER_SECOND == "BYTES_PER_SECOND"
    ensures MEGABYTES_PER_SECOND == "MEGABYTES_PER_SECOND" && GIGABYTES_PER_HOUR == "GIGABYTES_PER_HOUR"
    ensures SCALAR_PER_SECOND == "SCALAR_PER_SECOND" && SCALAR == "SCALAR"
  {
  }

  /** The catalog's domain is exactly the twelve named units. */
  lemma CatalogDomain()
    ensures forall u :: u in UnitsTransformationRules <==> u in NamedUnits
  {
  }

  /** A unit string outside the catalog exists, so "unknown unit" can happen. */
  lemma UnknownUnitRepresentable()
    ensures exists u: UnitEnum :: !KnownUnit(u)
  {
    assert !KnownUnit("");
  }

  /** The entries as the catalog lists them. */
  lemma CatalogEntries()
    ensures UnitsTransformationRules[PERCENT] == Rule(1.0, "_percent")
    ensures UnitsTransformationRules[MILLISECONDS] == Rule(0.001, "_seconds")
    ensures UnitsTransformationRules[SECONDS] == Rule(1.0, "_seconds")
    ensures UnitsTransformationRules[BYTES] == Rule(1.0, "_bytes")
    ensures UnitsTransformationRules[KILOBYTES] == Rule(1024.0, "_bytes")
    ensures UnitsTransformationRules[MEGABYTES] == Rule(1048576.0, "_bytes")
    ensures UnitsTransformationRules[GIGABYTES] == Rule(1073741824.0, "_bytes")
    ensures UnitsTransformationRules[BYTES_PER_SECOND] == Rule(1.0, "_bytes_ratio")
    ensures UnitsTransformationRules[MEGABYTES_PER_SECOND] == Rule(1048576.0, "_bytes_ratio")
    ensures UnitsTransformationRules[GIGABYTES_PER_HOUR] == Rule(1073741824.0, "_bytes_ratio_rate1h")
    ensures UnitsTransformationRules[SCALAR_PER_SECOND] == Rule(1.0, "_ratio")
    ensures UnitsTransformationRules[SCALAR] == Rule(1.0, "")
  {
  }

  /** Every multiplier in the catalog is strictly positive. */
  lemma MultipliersPositive()
    ensures forall u :: u in UnitsTransformationRules ==> UnitsTransformationRules[u].valueMultiplier > 0.0
  {
  }
}
