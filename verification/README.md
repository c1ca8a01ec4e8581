# Aggregating push gateway: merge core

This project models the merge core of a Prometheus push gateway that
aggregates pushed metrics rather than replacing them (`src/aggregator.rs`).
A push is an exposition of metric families. Each family is merged into the
gateway's stored family of the same name, or stored as a new family.
A reserved sample label, `clearmode`, picks the merge policy for each sample:

- `aggregate` adds the pushed value to the stored one.
- `replace` overwrites the stored value.
- `family` discards the whole stored family and adopts the pushed one.

The modules follow the source:

- `Metrics` holds the data model: label sets, the tagged values (unknown, gauge,
  counter, histogram, summary), samples and families. It also has small
  stand-ins for the metrics library calls the core uses:
  - `without_label` becomes `WithoutLabel`, `StripSample` and `StripFamily`.
  - `get_sample_matches_mut` becomes `FindMatch`.
- `ClearModes` resolves a sample's clear mode: the type default, parsing a
  label value, and the fallback for a missing or unknown value.
- `Buckets` is `merge_buckets`. It has a specification function `Merged`, the
  imperative `MergeBuckets` proved equal to it, and a model of the code as
  written (see Findings).
- `Values` is `merge_metric`. `MergeValue` returns the merged value, or the
  fault at which the source panics.
- `Families` is `AggregationFamily`: a class whose `Merge` method updates the
  stored family in place. It is proved against the specification functions
  `MergeSample` (one sample), `MergeAll` (the sample loop) and `MergeFamily`
  (name check, type check, family-wide clear, sample loop).
- `Aggregation` is `Aggregator`: a class holding a map from name to
  `AggregationFamily` objects. Its `ParseAndMerge` method is the merge loop of
  `parse_and_merge`, proved against the function `MergeBatch`.

## Model

| member | source | states |
|---|---|---|
| ClearModes.DefaultForType | src/aggregator.rs:28-33 | The default mode is `Replace` exactly for gauges and `Aggregate` for every other type. |
| ClearModes.FromStr | src/aggregator.rs:46-53 | Only "aggregate", "replace" and "family" parse, each to the mode spelled that way; anything else is rejected. |
| ClearModes.SpellingRoundTrip | src/aggregator.rs:46-53 | Parsing a mode's spelling gives back that mode. |
| ClearModes.FromLabels | src/aggregator.rs:35-40 | The resolved mode is `Family` if and only if the `clearmode` label is present and equals "family". A sample without the label gets the type default. |
| ClearModes.ExplicitModeWins | src/aggregator.rs:35-37 | A `clearmode` label spelling a valid mode resolves to that mode, whatever the family type. |
| ClearModes.UnknownModeFallsBack | src/aggregator.rs:35-38 | An unrecognised `clearmode` value is not an error. It resolves to the type default, the same as a sample without the label. |
| Metrics.WithoutLabel | src/aggregator.rs:205 | Removing a label drops exactly that key and keeps every other key and value. |
| Metrics.StripSample | src/aggregator.rs:205 | A stripped sample has no `clearmode` label, keeps its value and timestamp, and is unchanged if it had no such label. |
| Metrics.StripFamily | src/aggregator.rs:168 | A stripped family keeps its name, type and sample count. Each sample is stripped, and no sample carries `clearmode`. |
| Metrics.FindMatch | src/aggregator.rs:206 | Returns the first stored sample whose label set equals the given one, or none when no stored sample has it. |
| Metrics.FindMatchSameLabels | src/aggregator.rs:206 | Which stored sample matches depends only on the stored label sets, position by position. |
| Metrics.FindMatchAppend | src/aggregator.rs:206-210 | Appending a sample keeps an earlier match, and the appended sample becomes the match when there was none. |
| Buckets.MergeBuckets | src/aggregator.rs:66-101 | The two-index merge loop plus draining both tails gives exactly `Merged(val1, val2)`. |
| Buckets.MergedSorted | src/aggregator.rs:63-65 | Merging two bucket lists sorted by upper bound gives a list sorted by upper bound. |
| Buckets.MergedCountAt | src/aggregator.rs:72-98 | At every bound, the merged count is the sum of the two inputs' counts at that bound. |
| Buckets.MergedBucketCount | src/aggregator.rs:63-65 | For sorted inputs, each output bucket's count is the sum of both inputs' counts at its bound. |
| Buckets.MergedSharedBound | src/aggregator.rs:81-89 | Buckets sharing a bound become one bucket with the summed count and the second list's exemplar. |
| Buckets.MergedKeepsFirstOnly | src/aggregator.rs:75-77 | A bucket of the first list whose bound the second lacks is output unchanged. |
| Buckets.MergedKeepsSecondOnly | src/aggregator.rs:78-80 | A bucket of the second list whose bound the first lacks is output unchanged. |
| Buckets.MergedIdentity | src/aggregator.rs:92-98 | Merging with an empty list returns the other list. |
| Buckets.MergedBounds | src/aggregator.rs:72-98 | The merge outputs exactly the bounds of its two inputs: none lost, none invented. |
| Buckets.AsWrittenAgreesWhenVal2Consumed | src/aggregator.rs:96-98 | When the main loop consumes all of `val2`, the code as written gives the intended merge. |
| Buckets.AsWrittenDropsAndDuplicates | src/aggregator.rs:96-98 | Bounds 1,2 against 1,5: the code as written outputs bucket 2 twice and loses bucket 5. With `val2` longer than `val1` it indexes out of bounds. |
| Values.CombineOptional | src/aggregator.rs:135-145 | A histogram sum or count is present only when both sides have it. It is then summed under `Aggregate` and taken from the incoming side under `Replace`. |
| Values.MergeValue | src/aggregator.rs:104-162 | Values of different types fail, two summaries fail, and `Family` fails. Otherwise the merge succeeds and keeps the incoming type. |
| Values.MergeMetric | src/aggregator.rs:104-105 | A merged sample keeps its labels and timestamp; only its value becomes the merged value. |
| Values.ReplaceDiscardsStored | src/aggregator.rs:106-133 | Under `Replace`, an unknown, gauge or counter sample takes the incoming value exactly, whatever was stored. |
| Values.AggregateAddsScalars | src/aggregator.rs:106-119 | Under `Aggregate`, unknown and gauge numbers add up. |
| Values.CounterMerge | src/aggregator.rs:120-133 | A counter sums its totals under `Aggregate` or takes the incoming total under `Replace`; its exemplar is always the incoming one. |
| Values.HistogramMerge | src/aggregator.rs:134-159 | A histogram takes `created` from the incoming side and the incoming buckets under `Replace`. Under `Aggregate`, counts add at every bound and sorted buckets stay sorted. |
| Values.ReplaceIdempotent | src/aggregator.rs:106-151 | Merging the same incoming value twice under `Replace` gives the same result as merging it once. |
| Families.MergeSample | src/aggregator.rs:200-218 | An unmatched sample is appended as pushed, or rejected. A matched sample is merged in place under its resolved mode, and all other samples stay. A `Family` fault only arises from the `Family` mode. |
| Families.AggregationFamily.constructor | src/aggregator.rs:167-170 | A new stored family is the pushed family without `clearmode` on any sample. |
| Families.AggregationFamily.Merge | src/aggregator.rs:174-222 | The new stored family and the result are those of `MergeFamily`: name and type checks, the family-wide clear, then the sample loop. |
| Families.AggregationFamily.MergeSamples | src/aggregator.rs:199-218 | The sample loop leaves the stored samples and the error that `MergeAll` gives, stopping at the first error. |
| Families.AggregationFamily.MergeSampleInPlace | src/aggregator.rs:205-217 | One loop turn updates the stored samples as `MergeSample` says, or leaves them alone and reports its error. |
| Families.MismatchLeavesFamily | src/aggregator.rs:176-188 | A family of another name or type is refused with the matching error, and the stored family is unchanged. |
| Families.FamilyModeResets | src/aggregator.rs:190-197 | If any incoming sample resolves to `Family`, the stored family becomes the incoming one stripped of `clearmode`. |
| Families.MergeKeepsSchema | src/aggregator.rs:174-222 | A merge never changes the stored family's name or type. |
| Families.MergeAllNeverSeesFamilyMode | src/aggregator.rs:199-218 | If no incoming sample resolves to `Family`, the sample loop never reaches the `Family` arms of `merge_metric`. |
| Families.FamilyModeNeverReachesMerge | src/aggregator.rs:190-218 | No family merge ever hits the `unreachable!` for the `Family` mode. |
| Families.MergeAllLeavesUnmatched | src/aggregator.rs:200-218 | A stored sample that no incoming label set matches keeps its place and value, and samples are never removed. |
| Families.MergeAllKeepsLabels | src/aggregator.rs:200-218 | Every stored sample keeps its position and its label set through the sample loop. |
| Families.UnmatchedSampleKeepsClearMode | src/aggregator.rs:205-210 | A new label set pushed with `clearmode=replace` is stored with the label. Pushing it again does not match it, so a second copy is stored. |
| Families.MergeAllKeepsType | src/aggregator.rs:200-218 | If stored and incoming samples all carry the family type, the sample loop keeps them so and never hits the mismatched-values `unreachable!` (line 161). |
| Families.MergeFamilyKeepsType | src/aggregator.rs:174-222 | Merging a well-typed family into a well-typed family leaves it well typed and never fails on mismatched values. |
| Families.MergeAllStopsOnSampleErrors | src/aggregator.rs:200-218 | The sample loop stops only on a rejected sample or a `merge_metric` panic, never on a name or type check. |
| Families.GaugeStepSettles | src/aggregator.rs:205-217 | Merging one gauge sample without `clearmode` succeeds. Afterwards its label set is stored with its value, and samples already stored under other label sets keep theirs. |
| Families.GaugeLoopSettles | src/aggregator.rs:200-218 | The sample loop over distinct gauge samples without `clearmode` succeeds. Afterwards every incoming label set is stored with its pushed value. |
| Families.GaugeLoopOnSettled | src/aggregator.rs:200-218 | Under `Replace`, merging samples whose label sets already hold their values changes nothing. |
| Families.GaugeReplaceIdempotent | src/aggregator.rs:174-222 | Pushing the same gauge family twice (distinct label sets, no `clearmode`) stores the same family as pushing it once. |
| Aggregation.Aggregator.constructor | src/aggregator.rs:242-246 | A new aggregator stores no families. |
| Aggregation.Aggregator.ParseAndMerge | src/aggregator.rs:250-268 | After the push, the store and the result are those of `MergeBatch` over the batch. Every name keeps its own family object. |
| Aggregation.Aggregator.MergeOneFamily | src/aggregator.rs:255-264 | One loop turn merges into the stored family of that name, or stores a new stripped family. |
| Aggregation.MergeBatchLeavesOthers | src/aggregator.rs:254-265 | A name the push does not mention keeps its stored family, or stays absent. |
| Aggregation.MergeBatchSplit | src/aggregator.rs:254-265 | A push is its first part followed by the rest. The rest runs only if the first part succeeded, so the first error ends the push and earlier merges stay. |
| Aggregation.NewNameStoredStripped | src/aggregator.rs:260-263 | A name seen for the first time is stored as the pushed family without `clearmode`. |
| Aggregation.LaterFailureKeepsEarlierMerge | src/aggregator.rs:254-265 | When the second family of a push fails to merge, the first family's merge stands. The second stored family keeps what its failed merge left, and that error ends the push. |
| Aggregation.TypeChangeRefused | src/aggregator.rs:183-188 | A name pushed again with another type is refused with a type mismatch, and the store is unchanged. |
| Aggregation.MergeBatchKeepsType | src/aggregator.rs:254-265 | Pushes of well-typed families keep every stored family well typed and never fail on mismatched values. |
| Aggregation.MergeBatchNeverMismatchesNames | src/aggregator.rs:176-181 | When each family is pushed under its own name, the store stays keyed by name and the name check never fails. |
| Aggregation.TwoPushesMergeValues | src/aggregator.rs:250-268 | Two pushes of one unlabelled sample leave one sample whose value is the merge of both under the type's default mode. |
| Aggregation.TwoPushScalars | src/aggregator.rs:113-133 | A gauge pushed as 1 then 2 reads 2; a counter pushed as 1 then 2 reads 3. |
| Aggregation.TwoPushHistogram | src/aggregator.rs:134-159 | A histogram with `le="1"` 1 and `le="+Inf"` 2, pushed twice, reads 2 and 4. |

`MergeBatch`, `MergeFamily`, `MergeAll` and `ShouldClearFamily` are the
specification functions behind these rows. `MergeBuckets` and `MergeValue`
use the corrected bucket merge `Merged`. The code as written is kept in
`MergeBucketsAsWritten` (see Findings).

## Left out

- Parsing the exposition text (`parse_prometheus`) and rendering (`to_string`) are not part of this model. A push is given as an already parsed sequence of (name, family) pairs.
- `add_extra_labels` and the library's `with_labels` are not part of this model.
- The `RwLock`, `Arc` and `async` wrappers are left out: a push is one sequential step.
- Error payloads: `ParseError`, the `From` conversion and the message texts are reduced to the tags `NameMismatch`, `TypeMismatch`, `SampleRejected` and `Panicked`.
- Numbers are mathematical reals. `f64` rounding, overflow, NaN and the ordering of NaN bounds are not modelled; `+Inf` is the separate bound `PosInf`.
- The panics of `merge_metric` (`unreachable!` for `Family` or mismatched value types, `todo!` for summaries) become the error `Panicked(fault)`. The family and the store keep the in-place updates made before the fault, as after an unwinding panic; poisoning and aborting are not modelled.
- Families.AggregationFamily.Merge: the metrics library's checks inside `add_sample` are not modelled. They are the caller-supplied predicate `accepts`, and a rejection becomes `SampleRejected`.
- Aggregation.Aggregator.ParseAndMerge: the order of families in the parsed exposition comes from a hash map and is not modelled. The batch order is taken as given.
- Metrics.FindMatch: the library's `get_sample_matches_mut` is modelled as comparing whole label sets and returning the first match.
- ClearModes.FromLabels: reads the sample's label set directly. The library's `get_labelset().unwrap()` is taken to always succeed, so its panic is not modelled.
- Metrics.StripFamily: the library's `without_label(...).unwrap_or(...)` is modelled as always succeeding.
- Families.MergeSample: an unmatched sample is stored with its `clearmode` label, as the code does. The stored family then no longer holds only stripped label sets. The same push repeated stores a duplicate (`Families.UnmatchedSampleKeepsClearMode`). A repeated Replace push is proved idempotent only for samples without `clearmode` (`Families.GaugeReplaceIdempotent`).
- Aggregation.Aggregator.ParseAndMerge: after a family fails, the rest of the push is skipped and earlier merges stay (`?` returns early), as the code does. This differs from the idea that a failing family leaves the others in the same push unaffected.

## Findings

| source | as written | input that shows it | evidently intended | confidence | as-written member | corrected member |
|---|---|---|---|---|---|---|
| src/aggregator.rs:96-97 | the tail loop over the rest of `val2` pushes `val1[j]` | `val1` bounds 1, 2 and `val2` bounds 1, 5: output 1, 2, 2 and bucket 5 is lost. `val1` = [1], `val2` = [1, +Inf]: `val1[1]` is out of bounds (panic) | push `val2[j]`, draining the second list | not executed | Buckets.AsWrittenDropsAndDuplicates | Buckets.MergeBuckets |
