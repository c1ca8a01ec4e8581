/**
 * The data model of Prometheus metric families as the aggregator sees them,
 * and simple stand-ins for the three helpers of the metrics library that the
 * merge engine calls: removing a label, finding the stored sample with a
 * given label set, and appending a sample.
 */
module Metrics {
  import opened Wrappers

  /** A label set: label name to label value; equality ignores order. */
  type Labels = map<string, string>

  /** The reserved label that carries the per-sample clear mode. */
  const ClearModeLabel: string := "clearmode"

  /** The declared type of a metric family. */
  datatype MetricType = Counter | Gauge | Histogram | Summary | Unknown

  /** A histogram bucket's upper bound; `+Inf` is the largest bound. */
  datatype Bound = Finite(limit: real) | PosInf

  /** Strict order on bounds (the `<` of the source's `upper_bound` comparison). */
  predicate Below(x: Bound, y: Bound) {
    match (x, y)
    case (Finite(a), Finite(b)) => a < b
    case (Finite(_), PosInf) => true
    case (PosInf, _) => false
  }

  datatype Exemplar = Exemplar(labels: Labels, value: real, timestamp: Option<real>)

  datatype Bucket = Bucket(upperBound: Bound, count: real, exemplar: Option<Exemplar>)

  /** The type-tagged value of one sample. */
  datatype Value =
    | UnknownValue(number: real)
    | GaugeValue(number: real)
    | CounterValue(total: real, exemplar: Option<Exemplar>)
    | HistogramValue(sum: Option<real>, count: Option<real>, created: Option<real>, buckets: seq<Bucket>)
    | SummaryValue(quantiles: seq<real>)

  /** The metric type a value's tag belongs to. */
  function TypeOf(v: Value): MetricType {
    match v
    case UnknownValue(_) => Unknown
    case GaugeValue(_) => Gauge
    case CounterValue(_, _) => Counter
    case HistogramValue(_, _, _, _) => Histogram
    case SummaryValue(_) => Summary
  }

  datatype Sample = Sample(labels: Labels, value: Value, timestamp: Option<real>)

  datatype MetricFamily = MetricFamily(name: string, familyType: MetricType, samples: seq<Sample>)

  /** Stand-in for the library's `without_label` on a label set. */
  function WithoutLabel(labels: Labels, key: string): (r: Labels)
    ensures key !in r
    ensures forall k :: k in labels && k != key ==> k in r && r[k] == labels[k]
    ensures forall k :: k in r ==> k in labels
  {
    labels - {key}
  }

  /** A sample with its `clearmode` label removed. */
  function StripSample(s: Sample): (r: Sample)
    ensures ClearModeLabel !in r.labels
    ensures r.value == s.value && r.timestamp == s.timestamp
    ensures ClearModeLabel !in s.labels ==> r == s
  {
    s.(labels := WithoutLabel(s.labels, ClearModeLabel))
  }

  /** A family with the `clearmode` label removed from every sample. */
  function StripFamily(f: MetricFamily): (r: MetricFamily)
    ensures r.name == f.name && r.familyType == f.familyType
    ensures |r.samples| == |f.samples|
    ensures forall k :: 0 <= k < |f.samples| ==> r.samples[k] == StripSample(f.samples[k])
    ensures NoClearModeLabel(r.samples)
  {
    f.(samples := seq(|f.samples|, k requires 0 <= k < |f.samples| => StripSample(f.samples[k])))
  }

  /** True when no sample of the sequence carries the `clearmode` label. */
  predicate NoClearModeLabel(samples: seq<Sample>) {
    forall k :: 0 <= k < |samples| ==> ClearModeLabel !in samples[k].labels
  }

  /** True when every sample's value carries the tag of metric type `t`. */
  predicate OfType(samples: seq<Sample>, t: MetricType) {
    forall k :: 0 <= k < |samples| ==> TypeOf(samples[k].value) == t
  }

  /** True when no two samples share a label set, as within one parsed family. */
  predicate DistinctLabels(samples: seq<Sample>) {
    forall p, q :: 0 <= p < q < |samples| ==> samples[p].labels != samples[q].labels
  }

  /**
   * Stand-in for the library's `get_sample_matches_mut`: the index of the first
   * stored sample whose label set equals `labels`, if there is one.
   */
  function FindMatch(stored: seq<Sample>, labels: Labels): (r: Option<nat>)
    ensures r.Some? ==> r.value < |stored| && stored[r.value].labels == labels
    ensures r.Some? ==> forall j :: 0 <= j < r.value ==> stored[j].labels != labels
    ensures r.None? ==> forall j :: 0 <= j < |stored| ==> stored[j].labels != labels
    decreases |stored|
  {
    if stored == [] then None
    else if stored[0].labels == labels then Some(0)
    else match FindMatch(stored[1..], labels)
      case None => None
      case Some(k) => Some(k + 1)
  }

  /** `FindMatch` looks only at the label sets, position by position. */
  lemma FindMatchSameLabels(a: seq<Sample>, b: seq<Sample>, labels: Labels)
    requires |a| == |b| && forall j :: 0 <= j < |a| ==> a[j].labels == b[j].labels
    ensures FindMatch(a, labels) == FindMatch(b, labels)
  {
  }

  /** Appending a sample keeps an earlier match, and is the match when there was none. */
  lemma FindMatchAppend(a: seq<Sample>, x: Sample, labels: Labels)
    ensures FindMatch(a, labels).Some? ==> FindMatch(a + [x], labels) == FindMatch(a, labels)
    ensures FindMatch(a, labels).None? && x.labels == labels ==> FindMatch(a + [x], labels) == Some(|a|)
  {
    var r, r' := FindMatch(a, labels), FindMatch(a + [x], labels);
    if r.Some? {
      assert (a + [x])[r.value] == a[r.value];
    } else if x.labels == labels {
      assert (a + [x])[|a|] == x;
    }
  }
}
