/**
 * The parts of the `prometheus` crate the instrumentation relies on: label
 * vectors of counters and histograms, kept as maps from label values to
 * their current value, and a registry that refuses a second metric of the
 * same name.
 */
module Prometheus {
  import opened Wrappers

  /** One histogram observation. The crate observes `f64` seconds; here it is an abstract duration. */
  type Observation = nat

  /** The label values of one series, in the order of the metric's label names. */
  type LabelValues = seq<string>

  /** The gathered state of one metric family. */
  datatype Family =
    | CounterVec(help: string, labelNames: seq<string>, values: map<LabelValues, nat>)
    | HistogramVec(help: string, labelNames: seq<string>, observations: map<LabelValues, seq<Observation>>)

  datatype RegistryError = AlreadyReg(name: string)

  /** `Opts::namespace`: the fully-qualified name of a metric. */
  function FullName(namespace: string, name: string): string {
    if namespace == "" then name else namespace + "_" + name
  }

  /** The value of a counter series; a series that does not exist yet reads as 0. */
  function CounterValue(m: map<LabelValues, nat>, k: LabelValues): nat {
    if k in m then m[k] else 0
  }

  /** The observations of a histogram series; a series that does not exist yet has none. */
  function Observations(m: map<LabelValues, seq<Observation>>, k: LabelValues): seq<Observation> {
    if k in m then m[k] else []
  }

  /** `IntCounterVec::with_label_values` without `inc`: the series exists afterwards, at 0 if it is new. */
  function TouchCounter(m: map<LabelValues, nat>, k: LabelValues): (r: map<LabelValues, nat>)
    ensures r.Keys == m.Keys + {k}
    ensures forall j :: j in m ==> r[j] == m[j]
    ensures r[k] == CounterValue(m, k)
  {
    if k in m then m else m[k := 0]
  }

  /** `IntCounterVec::with_label_values(..).inc()`: one series gains 1, no other series changes. */
  function Inc(m: map<LabelValues, nat>, k: LabelValues): (r: map<LabelValues, nat>)
    ensures r.Keys == m.Keys + {k}
    ensures CounterValue(r, k) == CounterValue(m, k) + 1
    ensures forall j :: j != k ==> CounterValue(r, j) == CounterValue(m, j)
  {
    m[k := CounterValue(m, k) + 1]
  }

  /** `HistogramVec::with_label_values` without `observe`: the series exists afterwards, empty if it is new. */
  function TouchHistogram(m: map<LabelValues, seq<Observation>>, k: LabelValues): (r: map<LabelValues, seq<Observation>>)
    ensures r.Keys == m.Keys + {k}
    ensures forall j :: j in m ==> r[j] == m[j]
    ensures r[k] == Observations(m, k)
  {
    if k in m then m else m[k := []]
  }

  /** `HistogramVec::with_label_values(..).observe(v)`: one series gains the observation `v`, no other changes. */
  function Observe(m: map<LabelValues, seq<Observation>>, k: LabelValues, v: Observation): (r: map<LabelValues, seq<Observation>>)
    ensures r.Keys == m.Keys + {k}
    ensures Observations(r, k) == Observations(m, k) + [v]
    ensures forall j :: j != k ==> Observations(r, j) == Observations(m, j)
  {
    m[k := Observations(m, k) + [v]]
  }

  /** `prometheus::Registry`: named metric families, shared by reference between its holders. */
  class Registry {
    var families: map<string, Family>

    /** `Registry::new`. */
    constructor ()
      ensures families == map[]
    {
      families := map[];
    }

    /** `Registry::register`: fails on a name that is already registered and then changes nothing. */
    method Register(name: string, family: Family) returns (r: RegisterResult<RegistryError>)
      modifies this
      ensures name in old(families) ==> r == Fail(AlreadyReg(name)) && families == old(families)
      ensures name !in old(families) ==> r == Pass && families == old(families)[name := family]
    {
      if name in families {
        r := Fail(AlreadyReg(name));
      } else {
        families := families[name := family];
        r := Pass;
      }
    }

    /** `Registry::gather`: the families currently registered. */
    function Gather(): map<string, Family>
      reads this
    {
      families
    }
  }
}
