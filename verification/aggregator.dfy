/**
 * The aggregator's store: metric name to stored family. One push is a batch
 * of (name, family) pairs, merged in order; the first error ends the push and
 * whatever was merged before it stays merged.
 */
module Aggregation {
  import opened Wrappers
  import opened Metrics
  import opened Families
  import opened ClearModes
  import opened Values
  import opened Buckets

  /**
   * The store update of `Aggregator::parse_and_merge` from pair `i` of the
   * batch on: a seen name is merged into its stored family, an unseen one is
   * stored with `clearmode` removed.
   */
  function MergeBatch(store: map<string, MetricFamily>, batch: seq<(string, MetricFamily)>, i: nat, accepts: Sample -> bool): Outcome<map<string, MetricFamily>>
    requires i <= |batch|
    decreases |batch| - i
  {
    if i == |batch| then Outcome(store, None)
    else
      var name := batch[i].0;
      if name in store then
        var o := MergeFamily(store[name], batch[i].1, accepts);
        if o.error.Some? then Outcome(store[name := o.state], o.error)
        else MergeBatch(store[name := o.state], batch, i + 1, accepts)
      else MergeBatch(store[name := StripFamily(batch[i].1)], batch, i + 1, accepts)
  }

  class Aggregator {
    var families: map<string, AggregationFamily>

    /** Each name owns its own stored family object. */
    ghost predicate Valid()
      reads this
    {
      forall n, m :: n in families && m in families && n != m ==> families[n] != families[m]
    }

    /** The stored families by name. */
    ghost function View(): map<string, MetricFamily>
      reads this, families.Values
    {
      map n | n in families :: families[n].baseFamily
    }

    /** `Aggregator::new`: an empty store. */
    constructor ()
      ensures Valid() && View() == map[]
    {
      families := map[];
    }

    /**
     * The merge loop of `Aggregator::parse_and_merge` over an already parsed
     * batch; `accepts` stands for the metrics library's check in `add_sample`.
     */
    method ParseAndMerge(batch: seq<(string, MetricFamily)>, accepts: Sample -> bool) returns (r: Result<(), AggregationError>)
      requires Valid()
      modifies this, families.Values
      ensures Valid()
      ensures View() == MergeBatch(old(View()), batch, 0, accepts).state
      ensures r.Err? <==> MergeBatch(old(View()), batch, 0, accepts).error.Some?
      ensures r.Err? ==> r.error == MergeBatch(old(View()), batch, 0, accepts).error.value
    {
      for i := 0 to |batch|
        invariant Valid()
        invariant forall n :: n in families ==> families[n] in old(families.Values) || fresh(families[n])
        invariant MergeBatch(View(), batch, i, accepts) == MergeBatch(old(View()), batch, 0, accepts)
      {
        var failure := MergeOneFamily(batch[i].0, batch[i].1, accepts);
        if failure.Some? {
          return Err(failure.value);
        }
      }
      return Ok(());
    }

    /**
     * One turn of the loop of `Aggregator::parse_and_merge`: merge into the
     * stored family of that name, or store the family as a new one.
     */
    method MergeOneFamily(name: string, metrics: MetricFamily, accepts: Sample -> bool) returns (failure: Option<AggregationError>)
      requires Valid()
      modifies this, families.Values
      ensures Valid()
      ensures forall n :: n in families ==> families[n] in old(families.Values) || fresh(families[n])
      ensures var step := MergeBatch(old(View()), [(name, metrics)], 0, accepts);
        View() == step.state && failure == step.error
    {
      ghost var before := View();
      if name in families {
        var f := families[name];
        var res := f.Merge(metrics, accepts);
        assert View() == before[name := f.baseFamily];
        if res.Err? {
          return Some(res.error);
        }
      } else {
        var created := new AggregationFamily(metrics);
        families := families[name := created];
        assert View() == before[name := StripFamily(metrics)];
      }
      return None;
    }
  }

  /** A name the batch does not mention keeps its stored family (or stays absent). */
  lemma {:induction false} MergeBatchLeavesOthers(store: map<string, MetricFamily>, batch: seq<(string, MetricFamily)>, i: nat, accepts: Sample -> bool, n: string)
    requires i <= |batch|
    requires forall k :: i <= k < |batch| ==> batch[k].0 != n
    ensures var o := MergeBatch(store, batch, i, accepts);
      (n in o.state <==> n in store) && (n in store ==> o.state[n] == store[n])
    decreases |batch| - i
  {
    if i < |batch| {
      var name := batch[i].0;
      if name in store {
        var o := MergeFamily(store[name], batch[i].1, accepts);
        if o.error.None? {
          MergeBatchLeavesOthers(store[name := o.state], batch, i + 1, accepts, n);
        }
      } else {
        MergeBatchLeavesOthers(store[name := StripFamily(batch[i].1)], batch, i + 1, accepts, n);
      }
    }
  }

  /**
   * A batch is its first `m` pairs followed by the rest: the rest runs only
   * if the first part succeeded, from the state the first part left; so the
   * first error ends the push and earlier merges keep their effect.
   */
  lemma {:induction false} MergeBatchSplit(store: map<string, MetricFamily>, batch: seq<(string, MetricFamily)>, i: nat, m: nat, accepts: Sample -> bool)
    requires i <= m <= |batch|
    ensures var first := MergeBatch(store, batch[..m], i, accepts);
      MergeBatch(store, batch, i, accepts) == if first.error.Some? then first else MergeBatch(first.state, batch, m, accepts)
    decreases m - i
  {
    if i < m {
      assert batch[..m][i] == batch[i];
      var name := batch[i].0;
      if name in store {
        var o := MergeFamily(store[name], batch[i].1, accepts);
        if o.error.None? {
          MergeBatchSplit(store[name := o.state], batch, i + 1, m, accepts);
        }
      } else {
        MergeBatchSplit(store[name := StripFamily(batch[i].1)], batch, i + 1, m, accepts);
      }
    }
  }

  /** A name seen for the first time is stored as its family without `clearmode`. */
  lemma NewNameStoredStripped(store: map<string, MetricFamily>, name: string, family: MetricFamily, accepts: Sample -> bool)
    requires name !in store
    ensures var o := MergeBatch(store, [(name, family)], 0, accepts);
      o.error == None && o.state == store[name := StripFamily(family)] && NoClearModeLabel(o.state[name].samples)
  {
  }

  /**
   * When the second family of a push fails to merge (wrong type, a rejected
   * or unmergeable sample), the first family's merge stands and the second
   * stored family keeps whatever its failed merge left.
   */
  lemma LaterFailureKeepsEarlierMerge(store: map<string, MetricFamily>, n1: string, f1: MetricFamily, n2: string, f2: MetricFamily, accepts: Sample -> bool)
    requires n1 != n2 && n2 in store
    requires MergeBatch(store, [(n1, f1)], 0, accepts).error.None?
    requires MergeFamily(store[n2], f2, accepts).error.Some?
    ensures var first := MergeBatch(store, [(n1, f1)], 0, accepts).state;
      var second := MergeFamily(store[n2], f2, accepts);
      MergeBatch(store, [(n1, f1), (n2, f2)], 0, accepts) == Outcome(first[n2 := second.state], second.error)
  {
    var first := MergeBatch(store, [(n1, f1)], 0, accepts).state;
    MergeBatchSplit(store, [(n1, f1), (n2, f2)], 0, 1, accepts);
    assert [(n1, f1), (n2, f2)][..1] == [(n1, f1)];
    assert n2 in first && first[n2] == store[n2];
  }

  /** A name pushed again with another type is refused and its stored family is untouched. */
  lemma TypeChangeRefused(store: map<string, MetricFamily>, name: string, f: MetricFamily, accepts: Sample -> bool)
    requires name in store && f.name == store[name].name && f.familyType != store[name].familyType
    ensures MergeBatch(store, [(name, f)], 0, accepts) == Outcome(store, Some(TypeMismatch))
  {
    MismatchLeavesFamily(store[name], f, accepts);
    assert store[name := store[name]] == store;
  }

  /** Every stored family's samples carry the family's type. */
  predicate WellTypedStore(store: map<string, MetricFamily>) {
    forall n :: n in store ==> OfType(store[n].samples, store[n].familyType)
  }

  /** Every family is stored under its own name. */
  predicate KeyedByName(store: map<string, MetricFamily>) {
    forall n :: n in store ==> store[n].name == n
  }

  /**
   * Pushes of well-typed families keep the store well typed and never fail on
   * mismatched values.
   */
  lemma {:induction false} MergeBatchKeepsType(store: map<string, MetricFamily>, batch: seq<(string, MetricFamily)>, i: nat, accepts: Sample -> bool)
    requires i <= |batch| && WellTypedStore(store)
    requires forall k :: i <= k < |batch| ==> OfType(batch[k].1.samples, batch[k].1.familyType)
    ensures WellTypedStore(MergeBatch(store, batch, i, accepts).state)
    ensures MergeBatch(store, batch, i, accepts).error != Some(Panicked(MismatchedValues))
    decreases |batch| - i
  {
    if i < |batch| {
      var name := batch[i].0;
      if name in store {
        var o := MergeFamily(store[name], batch[i].1, accepts);
        MergeFamilyKeepsType(store[name], batch[i].1, accepts);
        MergeKeepsSchema(store[name], batch[i].1, accepts);
        assert WellTypedStore(store[name := o.state]);
        if o.error.None? {
          MergeBatchKeepsType(store[name := o.state], batch, i + 1, accepts);
        }
      } else {
        var stripped := StripFamily(batch[i].1);
        assert OfType(stripped.samples, stripped.familyType);
        MergeBatchKeepsType(store[name := stripped], batch, i + 1, accepts);
      }
    }
  }

  /**
   * When the push files each family under its own name, as the parsed
   * exposition does, the store stays keyed by name and the name check of
   * `AggregationFamily::merge` never fails.
   */
  lemma {:induction false} MergeBatchNeverMismatchesNames(store: map<string, MetricFamily>, batch: seq<(string, MetricFamily)>, i: nat, accepts: Sample -> bool)
    requires i <= |batch| && KeyedByName(store)
    requires forall k :: i <= k < |batch| ==> batch[k].0 == batch[k].1.name
    ensures KeyedByName(MergeBatch(store, batch, i, accepts).state)
    ensures MergeBatch(store, batch, i, accepts).error != Some(NameMismatch)
    decreases |batch| - i
  {
    if i < |batch| {
      var name := batch[i].0;
      if name in store {
        var o := MergeFamily(store[name], batch[i].1, accepts);
        MergeKeepsSchema(store[name], batch[i].1, accepts);
        MergeAllStopsOnSampleErrors(store[name].samples, batch[i].1.samples, 0, store[name].familyType, accepts);
        if o.error.None? {
          MergeBatchNeverMismatchesNames(store[name := o.state], batch, i + 1, accepts);
        }
      } else {
        MergeBatchNeverMismatchesNames(store[name := StripFamily(batch[i].1)], batch, i + 1, accepts);
      }
    }
  }

  /** Two pushes of one unlabelled sample into an empty store, the second push merged into the first. */
  function TwoPushes(name: string, t: MetricType, first: Value, second: Value, accepts: Sample -> bool): Outcome<map<string, MetricFamily>> {
    var once := MergeBatch(map[], [(name, MetricFamily(name, t, [Sample(map[], first, None)]))], 0, accepts);
    MergeBatch(once.state, [(name, MetricFamily(name, t, [Sample(map[], second, None)]))], 0, accepts)
  }

  /** Two pushes of one unlabelled sample merge the two values under the type's default mode. */
  lemma TwoPushesMergeValues(name: string, t: MetricType, first: Value, second: Value, accepts: Sample -> bool)
    requires MergeValue(first, second, DefaultForType(t)).Ok?
    ensures TwoPushes(name, t, first, second, accepts)
         == Outcome(map[name := MetricFamily(name, t, [Sample(map[], MergeValue(first, second, DefaultForType(t)).value, None)])], None)
  {
    var none: Labels := map[];
    var s1, s2 := Sample(none, first, None), Sample(none, second, None);
    var f1, f2 := MetricFamily(name, t, [s1]), MetricFamily(name, t, [s2]);
    assert WithoutLabel(none, ClearModeLabel) == none;
    assert StripFamily(f1) == f1;
    assert MergeBatch(map[], [(name, f1)], 0, accepts) == Outcome(map[name := f1], None);
    assert !ShouldClearFamily(f2);
    assert FindMatch([s1], none) == Some(0);
    var merged := s1.(value := MergeValue(first, second, DefaultForType(t)).value);
    assert FromLabels(t, s2.labels) == DefaultForType(t);
    var step := MergeSample([s1], s2, t, accepts);
    assert step.Ok? && |step.value| == 1 && step.value[0] == merged;
    assert step.value == [merged];
    assert step == Ok([merged]);
    assert MergeAll([s1], [s2], 0, t, accepts) == Outcome([merged], None);
    assert MergeFamily(f1, f2, accepts) == Outcome(f1.(samples := [merged]), None);
    assert map[name := f1][name := f1.(samples := [merged])] == map[name := f1.(samples := [merged])];
    assert MergeBatch(map[name := f1], [(name, f2)], 0, accepts) == Outcome(map[name := f1.(samples := [merged])], None);
  }

  /** A gauge pushed as 1 then 2 reads 2; a counter pushed as 1 then 2 reads 3. */
  lemma TwoPushScalars(accepts: Sample -> bool)
    ensures TwoPushes("foo", Gauge, GaugeValue(1.0), GaugeValue(2.0), accepts)
         == Outcome(map["foo" := MetricFamily("foo", Gauge, [Sample(map[], GaugeValue(2.0), None)])], None)
    ensures TwoPushes("bar", Counter, CounterValue(1.0, None), CounterValue(2.0, None), accepts)
         == Outcome(map["bar" := MetricFamily("bar", Counter, [Sample(map[], CounterValue(3.0, None), None)])], None)
  {
    TwoPushesMergeValues("foo", Gauge, GaugeValue(1.0), GaugeValue(2.0), accepts);
    TwoPushesMergeValues("bar", Counter, CounterValue(1.0, None), CounterValue(2.0, None), accepts);
  }

  /** A histogram with buckets `le="1"` 1 and `le="+Inf"` 2 pushed twice reads 2 and 4. */
  lemma TwoPushHistogram(accepts: Sample -> bool)
    ensures var h := HistogramValue(None, None, None, [Bucket(Finite(1.0), 1.0, None), Bucket(PosInf, 2.0, None)]);
      TwoPushes("h", Histogram, h, h, accepts)
         == Outcome(map["h" := MetricFamily("h", Histogram,
              [Sample(map[], HistogramValue(None, None, None, [Bucket(Finite(1.0), 2.0, None), Bucket(PosInf, 4.0, None)]), None)])], None)
  {
    var b := [Bucket(Finite(1.0), 1.0, None), Bucket(PosInf, 2.0, None)];
    assert b[1..] == [Bucket(PosInf, 2.0, None)];
    assert Merged(b[1..], b[1..]) == [Bucket(PosInf, 4.0, None)];
    assert Merged(b, b) == [Bucket(Finite(1.0), 2.0, None), Bucket(PosInf, 4.0, None)];
    var h := HistogramValue(None, None, None, b);
    TwoPushesMergeValues("h", Histogram, h, h, accepts);
  }
}
