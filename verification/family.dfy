/**
 * One stored metric family (`AggregationFamily`) and how an incoming family
 * of the same name is merged into it: a schema check, then either a
 * family-wide reset or a sample-by-sample merge in place.
 */
module Families {
  import opened Wrappers
  import opened Metrics
  import opened ClearModes
  import opened Values

  /** Why a family merge stops (the message texts are not modelled). */
  datatype AggregationError =
    | NameMismatch
    | TypeMismatch
    | SampleRejected           // the metrics library's `add_sample` refused the sample
    | Panicked(fault: MergeFault)

  /** A state reached by a merge and the error that stopped it, if any. */
  datatype Outcome<T> = Outcome(state: T, error: Option<AggregationError>)

  /** True when some incoming sample asks for the whole family to be reset. */
  predicate ShouldClearFamily(f: MetricFamily) {
    exists k :: 0 <= k < |f.samples| && FromLabels(f.familyType, f.samples[k].labels) == Family
  }

  /**
   * One turn of the per-sample loop of `AggregationFamily::merge`: the first
   * stored sample whose label set equals the incoming one without `clearmode`
   * is merged in place under the incoming sample's own mode; with no such
   * sample the incoming one is appended as it is, `clearmode` label included,
   * if the library accepts it.
   */
  function MergeSample(stored: seq<Sample>, metric: Sample, t: MetricType, accepts: Sample -> bool): (r: Result<seq<Sample>, AggregationError>)
    ensures FindMatch(stored, WithoutLabel(metric.labels, ClearModeLabel)).None? ==>
      r == if accepts(metric) then Ok(stored + [metric]) else Err(SampleRejected)
    ensures FindMatch(stored, WithoutLabel(metric.labels, ClearModeLabel)).Some? ==>
      var k := FindMatch(stored, WithoutLabel(metric.labels, ClearModeLabel)).value;
      var m := MergeValue(stored[k].value, metric.value, FromLabels(t, metric.labels));
      && (m.Err? ==> r == Err(Panicked(m.error)))
      && (m.Ok? ==> r.Ok? && |r.value| == |stored| && r.value[k] == stored[k].(value := m.value)
                    && forall j :: 0 <= j < |stored| && j != k ==> r.value[j] == stored[j])
    ensures r == Err(Panicked(FamilyModeReachedMerge)) ==> FromLabels(t, metric.labels) == Family
  {
    match FindMatch(stored, WithoutLabel(metric.labels, ClearModeLabel))
    case None => if accepts(metric) then Ok(stored + [metric]) else Err(SampleRejected)
    case Some(k) =>
      match MergeMetric(stored[k], metric, FromLabels(t, metric.labels))
      case Ok(merged) => Ok(stored[k := merged])
      case Err(fault) => Err(Panicked(fault))
  }

  /** The per-sample loop from incoming sample `i` on; the first error stops it. */
  function MergeAll(stored: seq<Sample>, incoming: seq<Sample>, i: nat, t: MetricType, accepts: Sample -> bool): Outcome<seq<Sample>>
    requires i <= |incoming|
    decreases |incoming| - i
  {
    if i == |incoming| then Outcome(stored, None)
    else match MergeSample(stored, incoming[i], t, accepts)
      case Err(e) => Outcome(stored, Some(e))
      case Ok(next) => MergeAll(next, incoming, i + 1, t, accepts)
  }

  /** `AggregationFamily::merge` as a function of the stored family and the incoming one. */
  function MergeFamily(base: MetricFamily, incoming: MetricFamily, accepts: Sample -> bool): Outcome<MetricFamily> {
    if incoming.name != base.name then Outcome(base, Some(NameMismatch))
    else if incoming.familyType != base.familyType then Outcome(base, Some(TypeMismatch))
    else if ShouldClearFamily(incoming) then Outcome(StripFamily(incoming), None)
    else
      var o := MergeAll(base.samples, incoming.samples, 0, base.familyType, accepts);
      Outcome(base.(samples := o.state), o.error)
  }

  class AggregationFamily {
    var baseFamily: MetricFamily

    /** `AggregationFamily::new`: the family as first pushed, `clearmode` removed. */
    constructor (family: MetricFamily)
      ensures baseFamily == StripFamily(family)
      ensures NoClearModeLabel(baseFamily.samples)
    {
      baseFamily := StripFamily(family);
    }

    /** `AggregationFamily::merge`; on an error the samples merged before it keep their new state. */
    method Merge(newFamily: MetricFamily, accepts: Sample -> bool) returns (r: Result<(), AggregationError>)
      modifies this
      ensures baseFamily == MergeFamily(old(baseFamily), newFamily, accepts).state
      ensures r.Err? <==> MergeFamily(old(baseFamily), newFamily, accepts).error.Some?
      ensures r.Err? ==> r.error == MergeFamily(old(baseFamily), newFamily, accepts).error.value
    {
      if newFamily.name != baseFamily.name {
        return Err(NameMismatch);
      }
      if newFamily.familyType != baseFamily.familyType {
        return Err(TypeMismatch);
      }
      if ShouldClearFamily(newFamily) {
        baseFamily := StripFamily(newFamily);
        return Ok(());
      }
      var failure := MergeSamples(newFamily.samples, accepts);
      if failure.Some? {
        return Err(failure.value);
      }
      return Ok(());
    }

    /**
     * The sample loop of `AggregationFamily::merge`; the first error (the `?`
     * after `add_sample`, or a panic in `merge_metric`) stops it.
     */
    method MergeSamples(incoming: seq<Sample>, accepts: Sample -> bool) returns (failure: Option<AggregationError>)
      modifies this
      ensures var o := MergeAll(old(baseFamily.samples), incoming, 0, old(baseFamily.familyType), accepts);
        baseFamily == old(baseFamily).(samples := o.state) && failure == o.error
    {
      var familyType := baseFamily.familyType;
      for i := 0 to |incoming|
        invariant baseFamily == old(baseFamily).(samples := baseFamily.samples)
        invariant MergeAll(baseFamily.samples, incoming, i, familyType, accepts)
               == MergeAll(old(baseFamily.samples), incoming, 0, familyType, accepts)
      {
        failure := MergeSampleInPlace(incoming[i], familyType, accepts);
        if failure.Some? {
          return;
        }
      }
      return None;
    }

    /**
     * One turn of the sample loop of `AggregationFamily::merge`: merge the
     * matching stored sample in place, or append the incoming one.
     */
    method MergeSampleInPlace(metric: Sample, familyType: MetricType, accepts: Sample -> bool) returns (failure: Option<AggregationError>)
      modifies this
      ensures var step := MergeSample(old(baseFamily.samples), metric, familyType, accepts);
        && (step.Ok? ==> failure == None && baseFamily == old(baseFamily).(samples := step.value))
        && (step.Err? ==> failure == Some(step.error) && baseFamily == old(baseFamily))
    {
      var cmpLabels := WithoutLabel(metric.labels, ClearModeLabel);
      match FindMatch(baseFamily.samples, cmpLabels) {
        case None =>
          if !accepts(metric) {
            return Some(SampleRejected);
          }
          baseFamily := baseFamily.(samples := baseFamily.samples + [metric]);
        case Some(k) =>
          var clearMode := FromLabels(familyType, metric.labels);
          var merged := MergeMetric(baseFamily.samples[k], metric, clearMode);
          if merged.Err? {
            return Some(Panicked(merged.error));
          }
          baseFamily := baseFamily.(samples := baseFamily.samples[k := merged.value]);
      }
      return None;
    }
  }

  /** A family of another name or type is refused and the stored family is left as it was. */
  lemma MismatchLeavesFamily(base: MetricFamily, incoming: MetricFamily, accepts: Sample -> bool)
    requires incoming.name != base.name || incoming.familyType != base.familyType
    ensures MergeFamily(base, incoming, accepts).state == base
    ensures MergeFamily(base, incoming, accepts).error == Some(if incoming.name != base.name then NameMismatch else TypeMismatch)
  {
  }

  /**
   * One incoming sample resolving to `Family` resets the family: the stored
   * samples become exactly the incoming ones without `clearmode`, whatever the
   * other incoming samples ask for.
   */
  lemma FamilyModeResets(base: MetricFamily, incoming: MetricFamily, accepts: Sample -> bool, k: nat)
    requires incoming.name == base.name && incoming.familyType == base.familyType
    requires k < |incoming.samples| && FromLabels(incoming.familyType, incoming.samples[k].labels) == Family
    ensures MergeFamily(base, incoming, accepts) == Outcome(StripFamily(incoming), None)
    ensures NoClearModeLabel(MergeFamily(base, incoming, accepts).state.samples)
  {
  }

  /** Name and type of a stored family never change, whatever the merge does. */
  lemma MergeKeepsSchema(base: MetricFamily, incoming: MetricFamily, accepts: Sample -> bool)
    ensures MergeFamily(base, incoming, accepts).state.name == base.name
    ensures MergeFamily(base, incoming, accepts).state.familyType == base.familyType
  {
  }

  /** When no incoming sample resolves to `Family`, the sample loop never hands `Family` to the value merger. */
  lemma {:induction false} MergeAllNeverSeesFamilyMode(stored: seq<Sample>, incoming: seq<Sample>, i: nat, t: MetricType, accepts: Sample -> bool)
    requires i <= |incoming|
    requires forall k :: i <= k < |incoming| ==> FromLabels(t, incoming[k].labels) != Family
    ensures MergeAll(stored, incoming, i, t, accepts).error != Some(Panicked(FamilyModeReachedMerge))
    decreases |incoming| - i
  {
    if i < |incoming| {
      match MergeSample(stored, incoming[i], t, accepts)
      case Err(e) =>
      case Ok(next) => MergeAllNeverSeesFamilyMode(next, incoming, i + 1, t, accepts);
    }
  }

  /** The `unreachable!` arms of `merge_metric` for the `Family` mode are never reached through a family merge. */
  lemma FamilyModeNeverReachesMerge(base: MetricFamily, incoming: MetricFamily, accepts: Sample -> bool)
    ensures MergeFamily(base, incoming, accepts).error != Some(Panicked(FamilyModeReachedMerge))
  {
    if incoming.name == base.name && incoming.familyType == base.familyType && !ShouldClearFamily(incoming) {
      MergeAllNeverSeesFamilyMode(base.samples, incoming.samples, 0, base.familyType, accepts);
    }
  }

  /**
   * A stored sample whose label set no incoming sample (without `clearmode`)
   * carries keeps its place and its value; samples are only ever added at the
   * end, never removed.
   */
  lemma {:induction false} MergeAllLeavesUnmatched(stored: seq<Sample>, incoming: seq<Sample>, i: nat, t: MetricType, accepts: Sample -> bool, p: nat)
    requires i <= |incoming| && p < |stored|
    requires forall k :: i <= k < |incoming| ==> WithoutLabel(incoming[k].labels, ClearModeLabel) != stored[p].labels
    ensures |MergeAll(stored, incoming, i, t, accepts).state| >= |stored|
    ensures MergeAll(stored, incoming, i, t, accepts).state[p] == stored[p]
    decreases |incoming| - i
  {
    if i < |incoming| {
      match MergeSample(stored, incoming[i], t, accepts)
      case Err(e) =>
      case Ok(next) =>
        assert next[p] == stored[p];
        MergeAllLeavesUnmatched(next, incoming, i + 1, t, accepts, p);
    }
  }

  /** Every stored sample keeps its place and its label set through the sample loop. */
  lemma {:induction false} MergeAllKeepsLabels(stored: seq<Sample>, incoming: seq<Sample>, i: nat, t: MetricType, accepts: Sample -> bool)
    requires i <= |incoming|
    ensures |MergeAll(stored, incoming, i, t, accepts).state| >= |stored|
    ensures forall p :: 0 <= p < |stored| ==> MergeAll(stored, incoming, i, t, accepts).state[p].labels == stored[p].labels
    decreases |incoming| - i
  {
    if i < |incoming| {
      match MergeSample(stored, incoming[i], t, accepts)
      case Err(e) =>
      case Ok(next) =>
        MergeAllKeepsLabels(next, incoming, i + 1, t, accepts);
    }
  }

  /**
   * A new label set pushed with an explicit `clearmode` is stored with that
   * label, so the same push repeated no longer matches it and stores a second
   * copy: the stored family grows with every such push.
   */
  lemma UnmatchedSampleKeepsClearMode(accepts: Sample -> bool)
    requires forall s :: accepts(s)
    ensures var old1 := Sample(map["a" := "1"], GaugeValue(1.0), None);
      var pushed := Sample(map["a" := "2", ClearModeLabel := "replace"], GaugeValue(5.0), None);
      var base := MetricFamily("foo", Gauge, [old1]);
      var incoming := MetricFamily("foo", Gauge, [pushed]);
      var once := MergeFamily(base, incoming, accepts);
      var twice := MergeFamily(once.state, incoming, accepts);
      && once == Outcome(MetricFamily("foo", Gauge, [old1, pushed]), None)
      && ClearModeLabel in once.state.samples[1].labels
      && twice == Outcome(MetricFamily("foo", Gauge, [old1, pushed, pushed]), None)
  {
    var old1 := Sample(map["a" := "1"], GaugeValue(1.0), None);
    var pushed := Sample(map["a" := "2", ClearModeLabel := "replace"], GaugeValue(5.0), None);
    var incoming := MetricFamily("foo", Gauge, [pushed]);
    var cmp := WithoutLabel(pushed.labels, ClearModeLabel);
    assert "a" in cmp && cmp["a"] == "2";
    assert FromLabels(Gauge, pushed.labels) == Replace;
    assert !ShouldClearFamily(incoming);
    assert old1.labels != cmp by { assert old1.labels["a"] == "1"; }
    assert pushed.labels != cmp by { assert ClearModeLabel in pushed.labels; }
    assert FindMatch([old1], cmp) == None;
    assert FindMatch([old1, pushed], cmp) == None by {
      assert [old1, pushed][1..] == [pushed];
    }
    assert [old1] + [pushed] == [old1, pushed];
    assert [old1, pushed] + [pushed] == [old1, pushed, pushed];
    assert MergeSample([old1], pushed, Gauge, accepts) == Ok([old1, pushed]);
    assert MergeAll([old1], [pushed], 0, Gauge, accepts) == Outcome([old1, pushed], None);
    assert MergeSample([old1, pushed], pushed, Gauge, accepts) == Ok([old1, pushed, pushed]);
    assert MergeAll([old1, pushed], [pushed], 0, Gauge, accepts) == Outcome([old1, pushed, pushed], None);
  }

  /**
   * When the stored and the incoming samples all carry the family's type, the
   * sample loop keeps them so and never reaches the mismatched-values
   * `unreachable!` of `merge_metric`.
   */
  lemma {:induction false} MergeAllKeepsType(stored: seq<Sample>, incoming: seq<Sample>, i: nat, t: MetricType, accepts: Sample -> bool)
    requires i <= |incoming|
    requires OfType(stored, t) && OfType(incoming, t)
    ensures OfType(MergeAll(stored, incoming, i, t, accepts).state, t)
    ensures MergeAll(stored, incoming, i, t, accepts).error != Some(Panicked(MismatchedValues))
    decreases |incoming| - i
  {
    if i < |incoming| {
      var metric := incoming[i];
      match MergeSample(stored, metric, t, accepts)
      case Err(e) =>
      case Ok(next) =>
        if FindMatch(stored, WithoutLabel(metric.labels, ClearModeLabel)).None? {
          assert next == stored + [metric];
        }
        assert OfType(next, t);
        MergeAllKeepsType(next, incoming, i + 1, t, accepts);
    }
  }

  /**
   * A well-typed stored family merged with a well-typed incoming family stays
   * well typed, and the merge never fails on mismatched values.
   */
  lemma MergeFamilyKeepsType(base: MetricFamily, incoming: MetricFamily, accepts: Sample -> bool)
    requires OfType(base.samples, base.familyType) && OfType(incoming.samples, incoming.familyType)
    ensures var o := MergeFamily(base, incoming, accepts);
      OfType(o.state.samples, o.state.familyType) && o.error != Some(Panicked(MismatchedValues))
  {
    if incoming.name == base.name && incoming.familyType == base.familyType && !ShouldClearFamily(incoming) {
      MergeAllKeepsType(base.samples, incoming.samples, 0, base.familyType, accepts);
    }
  }

  /** The sample loop only stops on a rejected sample or a `merge_metric` panic, never on a schema check. */
  lemma {:induction false} MergeAllStopsOnSampleErrors(stored: seq<Sample>, incoming: seq<Sample>, i: nat, t: MetricType, accepts: Sample -> bool)
    requires i <= |incoming|
    ensures var e := MergeAll(stored, incoming, i, t, accepts).error;
      e.None? || e.value == SampleRejected || e.value.Panicked?
    decreases |incoming| - i
  {
    if i < |incoming| {
      match MergeSample(stored, incoming[i], t, accepts)
      case Err(e) =>
      case Ok(next) => MergeAllStopsOnSampleErrors(next, incoming, i + 1, t, accepts);
    }
  }

  /** The stored samples already hold `x`: its label set is stored, with `x`'s value. */
  predicate Settled(stored: seq<Sample>, x: Sample) {
    FindMatch(stored, x.labels).Some? && stored[FindMatch(stored, x.labels).value].value == x.value
  }

  /**
   * One gauge sample without `clearmode` merged under the default `Replace`:
   * afterwards it is settled, the samples stay gauges, and a sample settled
   * before under another label set stays settled.
   */
  lemma GaugeStepSettles(stored: seq<Sample>, x: Sample, y: Sample, accepts: Sample -> bool)
    requires forall s :: accepts(s)
    requires ClearModeLabel !in x.labels && TypeOf(x.value) == Gauge && OfType(stored, Gauge)
    ensures MergeSample(stored, x, Gauge, accepts).Ok?
    ensures var next := MergeSample(stored, x, Gauge, accepts).value;
      && OfType(next, Gauge) && Settled(next, x)
      && (Settled(stored, y) && y.labels != x.labels ==> Settled(next, y))
  {
    assert WithoutLabel(x.labels, ClearModeLabel) == x.labels;
    assert FromLabels(Gauge, x.labels) == Replace;
    var next := MergeSample(stored, x, Gauge, accepts).value;
    match FindMatch(stored, x.labels)
    case None =>
      assert next == stored + [x];
      FindMatchAppend(stored, x, x.labels);
      FindMatchAppend(stored, x, y.labels);
      if Settled(stored, y) {
        assert next[FindMatch(stored, y.labels).value] == stored[FindMatch(stored, y.labels).value];
      }
    case Some(p) =>
      assert next[p].value == x.value;
      FindMatchSameLabels(stored, next, x.labels);
      FindMatchSameLabels(stored, next, y.labels);
  }

  /**
   * The sample loop over distinct gauge samples without `clearmode` succeeds
   * and leaves every incoming sample settled.
   */
  lemma {:induction false} GaugeLoopSettles(stored: seq<Sample>, incoming: seq<Sample>, i: nat, accepts: Sample -> bool)
    requires i <= |incoming| && forall s :: accepts(s)
    requires OfType(stored, Gauge) && OfType(incoming, Gauge)
    requires NoClearModeLabel(incoming) && DistinctLabels(incoming)
    requires forall k :: 0 <= k < i ==> Settled(stored, incoming[k])
    ensures var o := MergeAll(stored, incoming, i, Gauge, accepts);
      o.error == None && forall k :: 0 <= k < |incoming| ==> Settled(o.state, incoming[k])
    decreases |incoming| - i
  {
    if i < |incoming| {
      GaugeStepSettles(stored, incoming[i], incoming[i], accepts);
      var next := MergeSample(stored, incoming[i], Gauge, accepts).value;
      forall k | 0 <= k < i + 1
        ensures Settled(next, incoming[k])
      {
        GaugeStepSettles(stored, incoming[i], incoming[k], accepts);
      }
      GaugeLoopSettles(next, incoming, i + 1, accepts);
    }
  }

  /** Merging samples that are all settled, under the gauge default `Replace`, changes nothing. */
  lemma {:induction false} GaugeLoopOnSettled(stored: seq<Sample>, incoming: seq<Sample>, i: nat, accepts: Sample -> bool)
    requires i <= |incoming|
    requires OfType(incoming, Gauge) && NoClearModeLabel(incoming)
    requires forall k :: i <= k < |incoming| ==> Settled(stored, incoming[k])
    ensures MergeAll(stored, incoming, i, Gauge, accepts) == Outcome(stored, None)
    decreases |incoming| - i
  {
    if i < |incoming| {
      var x := incoming[i];
      assert WithoutLabel(x.labels, ClearModeLabel) == x.labels;
      assert FromLabels(Gauge, x.labels) == Replace;
      var p := FindMatch(stored, x.labels).value;
      assert stored[p := stored[p].(value := x.value)] == stored;
      assert MergeSample(stored, x, Gauge, accepts) == Ok(stored);
      GaugeLoopOnSettled(stored, incoming, i + 1, accepts);
    }
  }

  /**
   * Pushing the same gauge family twice, with distinct label sets and no
   * `clearmode` labels, stores the same family as pushing it once.
   */
  lemma GaugeReplaceIdempotent(base: MetricFamily, incoming: MetricFamily, accepts: Sample -> bool)
    requires forall s :: accepts(s)
    requires incoming.name == base.name && incoming.familyType == base.familyType == Gauge
    requires OfType(base.samples, Gauge) && OfType(incoming.samples, Gauge)
    requires NoClearModeLabel(incoming.samples) && DistinctLabels(incoming.samples)
    ensures var once := MergeFamily(base, incoming, accepts);
      once.error == None && MergeFamily(once.state, incoming, accepts) == once
  {
    assert !ShouldClearFamily(incoming) by {
      forall k | 0 <= k < |incoming.samples|
        ensures FromLabels(Gauge, incoming.samples[k].labels) == Replace
      {
      }
    }
    GaugeLoopSettles(base.samples, incoming.samples, 0, accepts);
    var once := MergeAll(base.samples, incoming.samples, 0, Gauge, accepts);
    GaugeLoopOnSettled(once.state, incoming.samples, 0, accepts);
  }
}
