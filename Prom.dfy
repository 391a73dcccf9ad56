/** The slice of the Prometheus client library the exporter touches, as
    values: metric descriptors, emitted metrics and fully-qualified name
    building. */
module Prom {
  import opened Strings

  datatype ValueType = CounterValue | GaugeValue | UntypedValue

  /** prometheus.Labels. */
  type Labels = map<string, string>

  /** prometheus.Desc: name, help, variable label names and constant labels. */
  datatype Desc = Desc(fqName: string, help: string, variableLabels: seq<string>, constLabels: Labels)

  /** One sample sent on the collector's channel. */
  datatype Metric = Metric(desc: Desc, valueType: ValueType, value: real, labelValues: seq<string>)

  /** prometheus.BuildFQName: the non-empty parts joined by "_", or "" when the name is empty. */
  function BuildFQName(namespace: string, subsystem: string, name: string): (r: string)
  {
    if name == "" then ""
    else if namespace != "" && subsystem != "" then namespace + "_" + subsystem + "_" + name
    else if namespace != "" then namespace + "_" + name
    else if subsystem != "" then subsystem + "_" + name
    else name
  }

  /** The fully-qualified name is empty exactly when the name is, and otherwise
      ends with the name, preceded by "namespace_" when a namespace is given. */
  lemma BuildFQNameShape(namespace: string, subsystem: string, name: string)
    ensures BuildFQName(namespace, subsystem, name) == "" <==> name == ""
    ensures name != "" ==> name <= BuildFQName(namespace, subsystem, name)[|BuildFQName(namespace, subsystem, name)| - |name|..]
    ensures name != "" && namespace != "" ==> namespace + "_" <= BuildFQName(namespace, subsystem, name)
    ensures name != "" && namespace == "" && subsystem == "" ==> BuildFQName(namespace, subsystem, name) == name
  {
    var r := BuildFQName(namespace, subsystem, name);
    if name != "" {
      assert r[|r| - |name|..] == name;
      if namespace != "" && subsystem != "" {
        assert r == (namespace + "_") + (subsystem + "_" + name);
      } else if namespace != "" {
        assert r == (namespace + "_") + name;
      }
    }
  }

  /** Equal non-empty names under one namespace and subsystem are the only way to get equal fully-qualified names. */
  lemma BuildFQNameInjective(namespace: string, subsystem: string, a: string, b: string)
    requires BuildFQName(namespace, subsystem, a) == BuildFQName(namespace, subsystem, b)
    ensures a == b
  {
    var ra, rb := BuildFQName(namespace, subsystem, a), BuildFQName(namespace, subsystem, b);
    var p := if namespace != "" && subsystem != "" then namespace + "_" + subsystem + "_"
             else if namespace != "" then namespace + "_"
             else if subsystem != "" then subsystem + "_"
             else "";
    if a != "" && b != "" {
      assert ra == p + a;
      assert rb == p + b;
      assert a == ra[|p|..];
    }
  }

  /** prometheus.MustNewConstMetric, which panics unless there is one value per variable label. */
  function MustNewConstMetric(desc: Desc, valueType: ValueType, value: real, labelValues: seq<string>): Metric
    requires |labelValues| == |desc.variableLabels|
  {
    Metric(desc, valueType, value, labelValues)
  }
}
