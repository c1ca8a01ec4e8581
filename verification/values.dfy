/**
 * Value merging (`merge_metric`): combines the stored value of a sample with
 * an incoming one under a resolved clear mode. The source panics for the
 * `Family` mode, for values of different types and for summaries; here each
 * of those is an explicit `MergeFault`.
 */
module Values {
  import opened Wrappers
  import opened Metrics
  import opened ClearModes
  import opened Buckets

  /** The three ways `merge_metric` gives up (an `unreachable!` or `todo!` panic in the source). */
  datatype MergeFault = FamilyModeReachedMerge | MismatchedValues | UnsupportedSummary

  /**
   * An optional histogram `sum` or `count`: present only if both sides have
   * it; then summed under `Aggregate` and taken from the incoming side under
   * `Replace`.
   */
  function CombineOptional(stored: Option<real>, incoming: Option<real>, mode: ClearMode): (r: Option<real>)
    ensures r.Some? <==> stored.Some? && incoming.Some? && mode != Family
    ensures r.Some? && mode == Aggregate ==> r.value == stored.value + incoming.value
    ensures r.Some? && mode == Replace ==> r == incoming
  {
    match (stored, incoming, mode)
    case (Some(a), Some(b), Aggregate) => Some(a + b)
    case (Some(_), Some(b), Replace) => Some(b)
    case _ => None
  }

  /** The value `merge_metric` stores, or the fault at which it panics. */
  function MergeValue(stored: Value, incoming: Value, mode: ClearMode): (r: Result<Value, MergeFault>)
    ensures TypeOf(stored) != TypeOf(incoming) ==> r == Err(MismatchedValues)
    ensures TypeOf(stored) == TypeOf(incoming) == Summary ==> r == Err(UnsupportedSummary)
    ensures TypeOf(stored) == TypeOf(incoming) != Summary && mode == Family ==> r == Err(FamilyModeReachedMerge)
    ensures r.Ok? <==> TypeOf(stored) == TypeOf(incoming) != Summary && mode != Family
    ensures r.Ok? ==> TypeOf(r.value) == TypeOf(incoming)
  {
    match (stored, incoming)
    case (UnknownValue(v1), UnknownValue(v2)) =>
      (match mode
       case Aggregate => Ok(UnknownValue(v1 + v2))
       case Replace => Ok(UnknownValue(v2))
       case Family => Err(FamilyModeReachedMerge))
    case (GaugeValue(v1), GaugeValue(v2)) =>
      (match mode
       case Aggregate => Ok(GaugeValue(v1 + v2))
       case Replace => Ok(GaugeValue(v2))
       case Family => Err(FamilyModeReachedMerge))
    case (CounterValue(t1, _), CounterValue(t2, e2)) =>
      (match mode
       case Aggregate => Ok(CounterValue(t1 + t2, e2))
       case Replace => Ok(CounterValue(t2, e2))
       case Family => Err(FamilyModeReachedMerge))
    case (HistogramValue(s1, c1, _, b1), HistogramValue(s2, c2, created2, b2)) =>
      var sum := CombineOptional(s1, s2, mode);
      var count := CombineOptional(c1, c2, mode);
      (match mode
       case Aggregate => Ok(HistogramValue(sum, count, created2, Merged(b1, b2)))
       case Replace => Ok(HistogramValue(sum, count, created2, b2))
       case Family => Err(FamilyModeReachedMerge))
    case (SummaryValue(_), SummaryValue(_)) => Err(UnsupportedSummary)
    case _ => Err(MismatchedValues)
  }

  /**
   * `merge_metric` on whole samples: the stored sample keeps its labels and
   * timestamp and only its value changes.
   */
  function MergeMetric(into: Sample, merge: Sample, mode: ClearMode): (r: Result<Sample, MergeFault>)
    ensures r.Ok? ==> r.value.labels == into.labels && r.value.timestamp == into.timestamp
    ensures r.Ok? <==> MergeValue(into.value, merge.value, mode).Ok?
    ensures r.Ok? ==> r.value.value == MergeValue(into.value, merge.value, mode).value
    ensures r.Err? ==> r.error == MergeValue(into.value, merge.value, mode).error
  {
    match MergeValue(into.value, merge.value, mode)
    case Ok(v) => Ok(into.(value := v))
    case Err(f) => Err(f)
  }

  /** Under `Replace` an unknown, gauge or counter sample takes the incoming value exactly, whatever was stored. */
  lemma ReplaceDiscardsStored(stored: Value, incoming: Value)
    requires TypeOf(stored) == TypeOf(incoming) && TypeOf(incoming) in {Unknown, Gauge, Counter}
    ensures MergeValue(stored, incoming, Replace) == Ok(incoming)
  {
  }

  /** Under `Aggregate` unknown and gauge values add up. */
  lemma AggregateAddsScalars(stored: Value, incoming: Value)
    requires TypeOf(stored) == TypeOf(incoming) && TypeOf(incoming) in {Unknown, Gauge}
    ensures var r := MergeValue(stored, incoming, Aggregate);
      r.Ok? && TypeOf(r.value) == TypeOf(incoming) && r.value.number == stored.number + incoming.number
  {
  }

  /** A counter sums its totals under `Aggregate`, and its exemplar always comes from the incoming sample. */
  lemma CounterMerge(stored: Value, incoming: Value, mode: ClearMode)
    requires stored.CounterValue? && incoming.CounterValue? && mode != Family
    ensures var r := MergeValue(stored, incoming, mode);
      && r.Ok? && r.value.CounterValue?
      && r.value.exemplar == incoming.exemplar
      && r.value.total == (if mode == Aggregate then stored.total + incoming.total else incoming.total)
  {
  }

  /**
   * A histogram merge: `sum` and `count` follow `CombineOptional`, `created`
   * comes from the incoming sample, buckets are taken verbatim under
   * `Replace`; under `Aggregate` the count at every bound is the sum of both
   * sides' counts, and sorted buckets stay sorted.
   */
  lemma HistogramMerge(stored: Value, incoming: Value, mode: ClearMode)
    requires stored.HistogramValue? && incoming.HistogramValue? && mode != Family
    ensures var r := MergeValue(stored, incoming, mode);
      && r.Ok? && r.value.HistogramValue?
      && r.value.sum == CombineOptional(stored.sum, incoming.sum, mode)
      && r.value.count == CombineOptional(stored.count, incoming.count, mode)
      && r.value.created == incoming.created
      && (mode == Replace ==> r.value.buckets == incoming.buckets)
      && (mode == Aggregate ==> forall x :: CountAt(r.value.buckets, x) == CountAt(stored.buckets, x) + CountAt(incoming.buckets, x))
      && (mode == Aggregate && Sorted(stored.buckets) && Sorted(incoming.buckets) ==> Sorted(r.value.buckets))
  {
    if mode == Aggregate {
      forall x ensures CountAt(Merged(stored.buckets, incoming.buckets), x) == CountAt(stored.buckets, x) + CountAt(incoming.buckets, x) {
        MergedCountAt(stored.buckets, incoming.buckets, x);
      }
      if Sorted(stored.buckets) && Sorted(incoming.buckets) {
        MergedSorted(stored.buckets, incoming.buckets);
      }
    }
  }

  /** Merging the same incoming value a second time under `Replace` changes nothing. */
  lemma ReplaceIdempotent(stored: Value, incoming: Value)
    requires MergeValue(stored, incoming, Replace).Ok?
    ensures MergeValue(MergeValue(stored, incoming, Replace).value, incoming, Replace) == MergeValue(stored, incoming, Replace)
  {
  }
}
