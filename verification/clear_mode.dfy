/**
 * Clear-mode resolution: for every incoming sample, whether it is aggregated
 * into the stored sample, replaces it, or resets the whole family. The choice
 * comes from the sample's optional `clearmode` label; a missing or unknown
 * value falls back to a default that depends on the family's type.
 */
module ClearModes {
  import opened Wrappers
  import opened Metrics

  datatype ClearMode = Aggregate | Replace | Family

  /** The label value that names each mode (the inverse of `FromStr`). */
  function Spelling(m: ClearMode): string {
    match m
    case Aggregate => "aggregate"
    case Replace => "replace"
    case Family => "family"
  }

  /** `ClearMode::default_for_type`: gauges are replaced, everything else aggregated. */
  function DefaultForType(t: MetricType): (m: ClearMode)
    ensures m == Replace <==> t == Gauge
    ensures m == Aggregate <==> t != Gauge
  {
    match t
    case Counter | Unknown | Histogram | Summary => Aggregate
    case Gauge => Replace
  }

  /** `ClearMode::from_str`: only the three exact lower-case spellings parse. */
  function FromStr(s: string): (r: Option<ClearMode>)
    ensures r.Some? <==> s in {"aggregate", "replace", "family"}
    ensures r.Some? ==> Spelling(r.value) == s
  {
    match s
    case "aggregate" => Some(Aggregate)
    case "replace" => Some(Replace)
    case "family" => Some(Family)
    case _ => None
  }

  /**
   * `ClearMode::from_family`: the mode of one sample of a family of type `t`,
   * read from its label set.
   */
  function FromLabels(t: MetricType, labels: Labels): (m: ClearMode)
    ensures m == Family <==> ClearModeLabel in labels && labels[ClearModeLabel] == "family"
    ensures ClearModeLabel !in labels ==> m == DefaultForType(t)
  {
    if ClearModeLabel in labels then FromStr(labels[ClearModeLabel]).GetOr(DefaultForType(t))
    else DefaultForType(t)
  }

  /** Every mode survives the round trip through its spelling. */
  lemma SpellingRoundTrip(m: ClearMode)
    ensures FromStr(Spelling(m)) == Some(m)
  {
  }

  /** A `clearmode` label with a recognised value selects exactly that mode. */
  lemma ExplicitModeWins(t: MetricType, labels: Labels, m: ClearMode)
    requires ClearModeLabel in labels && labels[ClearModeLabel] == Spelling(m)
    ensures FromLabels(t, labels) == m
  {
    SpellingRoundTrip(m);
  }

  /**
   * An unrecognised `clearmode` value is not an error: it resolves exactly as
   * if the label were absent, to the type default.
   */
  lemma UnknownModeFallsBack(t: MetricType, labels: Labels)
    requires ClearModeLabel in labels && labels[ClearModeLabel] !in {"aggregate", "replace", "family"}
    ensures FromLabels(t, labels) == DefaultForType(t)
    ensures FromLabels(t, labels) == FromLabels(t, WithoutLabel(labels, ClearModeLabel))
  {
  }
}
