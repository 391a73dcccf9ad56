/** model/measurementmap.go: the map from measurement identity to
    measurement that collectors and measurers update in place. */
module MeasurementMaps {
  import opened Measurements
  import opened Atlas

  /** MeasurementMap, a Go map and therefore shared by reference. */
  class MeasurementMap {
    var entries: map<MeasurementID, Measurement>

    /** make(MeasurementMap). */
    constructor ()
      ensures entries == map[]
    {
      entries := map[];
    }

    /** RegisterMeasurement: stores the measurement under its own ID,
        replacing any earlier entry for that ID. */
    method RegisterMeasurement(m: Measurement)
      modifies this
      ensures entries == old(entries)[m.ID() := m]
      ensures m.ID() in entries && entries[m.ID()] == m
      ensures forall k :: k in old(entries) && k != m.ID() ==> k in entries && entries[k] == old(entries)[k]
      ensures entries.Keys == old(entries).Keys + {m.ID()}
    {
      entries := entries[m.ID() := m];
    }

    /** RegisterAtlasMeasurement: stores a measurement copied from an Atlas
        record under NewMeasurementID(name, units). */
    method RegisterAtlasMeasurement(am: AtlasMeasurement)
      modifies this
      ensures entries == old(entries)[NewMeasurementID(am.name, am.units) := Measurement(am.name, am.dataPoints, am.units)]
      ensures var m := entries[NewMeasurementID(am.name, am.units)];
        m.name == am.name && m.dataPoints == am.dataPoints && m.units == am.units && m.ID() == NewMeasurementID(am.name, am.units)
    {
      var id := NewMeasurementID(am.name, am.units);
      entries := entries[id := Measurement(am.name, am.dataPoints, am.units)];
    }
  }

  /** Registering one more entry grows the map by at most one. */
  lemma RegisterGrowsByAtMostOne(entries: map<MeasurementID, Measurement>, m: Measurement)
    ensures |entries[m.ID() := m]| <= |entries| + 1
    ensures m.ID() in entries ==> |entries[m.ID() := m]| == |entries|
  {
    var updated := entries[m.ID() := m];
    if m.ID() in entries {
      assert updated.Keys == entries.Keys;
    } else {
      assert updated.Keys == entries.Keys + {m.ID()};
    }
  }

  /** The last registration of an ID wins. */
  lemma LastRegistrationWins(entries: map<MeasurementID, Measurement>, a: Measurement, b: Measurement)
    requires a.ID() == b.ID()
    ensures entries[a.ID() := a][b.ID() := b] == entries[b.ID() := b]
  {
  }
}
