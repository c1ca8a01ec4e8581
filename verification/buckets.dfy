/**
 * Histogram bucket merging (`merge_buckets`): a merge-sort style merge of two
 * bucket lists sorted by ascending upper bound, summing the counts of buckets
 * that share a bound.
 *
 * `Merged` is the merge the doc comment describes, draining the remainder of
 * whichever list is left over; `MergeBuckets` is the two-index loop proved
 * equal to it. The source's second tail loop copies `val1[j]` where `val2[j]`
 * is meant; `MergeBucketsAsWritten` models that loop as written and
 * `AsWrittenDropsAndDuplicates` exhibits the difference.
 */
module Buckets {
  import opened Wrappers
  import opened Metrics

  /** Strictly ascending upper bounds. */
  predicate Sorted(s: seq<Bucket>) {
    forall i, j :: 0 <= i < j < |s| ==> Below(s[i].upperBound, s[j].upperBound)
  }

  /** Every bucket of `s` lies strictly above bound `x`. */
  predicate AllAbove(x: Bound, s: seq<Bucket>) {
    forall k :: 0 <= k < |s| ==> Below(x, s[k].upperBound)
  }

  /** Sum of the counts of the buckets of `s` whose upper bound is `x`. */
  function CountAt(s: seq<Bucket>, x: Bound): real
    decreases |s|
  {
    if s == [] then 0.0
    else (if s[0].upperBound == x then s[0].count else 0.0) + CountAt(s[1..], x)
  }

  /** The documented merge of `a` and `b`. */
  function Merged(a: seq<Bucket>, b: seq<Bucket>): seq<Bucket>
    decreases |a| + |b|
  {
    if a == [] then b
    else if b == [] then a
    else if Below(a[0].upperBound, b[0].upperBound) then [a[0]] + Merged(a[1..], b)
    else if Below(b[0].upperBound, a[0].upperBound) then [b[0]] + Merged(a, b[1..])
    else [Bucket(a[0].upperBound, a[0].count + b[0].count, b[0].exemplar)] + Merged(a[1..], b[1..])
  }

  /** Where the main loop of `merge_buckets` stops: the buckets emitted so far and the two indices. */
  datatype LoopExit = LoopExit(prefix: seq<Bucket>, i: nat, j: nat)

  /**
   * The main `while` loop of `merge_buckets`, run from indices `i`, `j` with
   * `out` already emitted: the smaller bound goes first, equal bounds are
   * summed and take the second list's exemplar.
   */
  function MainLoop(a: seq<Bucket>, b: seq<Bucket>, i: nat, j: nat, out: seq<Bucket>): (r: LoopExit)
    requires i <= |a| && j <= |b|
    ensures i <= r.i <= |a| && j <= r.j <= |b|
    ensures r.i == |a| || r.j == |b|
    decreases |a| - i + |b| - j
  {
    if i < |a| && j < |b| then
      if Below(a[i].upperBound, b[j].upperBound) then MainLoop(a, b, i + 1, j, out + [a[i]])
      else if Below(b[j].upperBound, a[i].upperBound) then MainLoop(a, b, i, j + 1, out + [b[j]])
      else MainLoop(a, b, i + 1, j + 1, out + [Bucket(a[i].upperBound, a[i].count + b[j].count, b[j].exemplar)])
    else LoopExit(out, i, j)
  }

  /** `merge_buckets` with both tails drained from their own list. */
  method MergeBuckets(val1: seq<Bucket>, val2: seq<Bucket>) returns (output: seq<Bucket>)
    ensures output == Merged(val1, val2)
  {
    var i, j := 0, 0;
    output := [];
    while i < |val1| && j < |val2|
      invariant 0 <= i <= |val1| && 0 <= j <= |val2|
      invariant MainLoop(val1, val2, i, j, output) == MainLoop(val1, val2, 0, 0, [])
    {
      var bucket1, bucket2 := val1[i], val2[j];
      if Below(bucket1.upperBound, bucket2.upperBound) {
        output := output + [bucket1];
        i := i + 1;
      } else if Below(bucket2.upperBound, bucket1.upperBound) {
        output := output + [bucket2];
        j := j + 1;
      } else {
        output := output + [Bucket(bucket1.upperBound, bucket1.count + bucket2.count, bucket2.exemplar)];
        i, j := i + 1, j + 1;
      }
    }
    ghost var stop := MainLoop(val1, val2, 0, 0, []);
    assert stop == LoopExit(output, i, j);
    for k := i to |val1|
      invariant output + (val1[k..] + val2[j..]) == stop.prefix + (val1[stop.i..] + val2[stop.j..])
    {
      Drain(val1, k, output, val2[j..]);
      output := output + [val1[k]];
    }
    assert val1[|val1|..] + val2[j..] == val2[j..];
    for k := j to |val2|
      invariant output + (val2[k..] + []) == stop.prefix + (val1[stop.i..] + val2[stop.j..])
    {
      Drain(val2, k, output, []);
      output := output + [val2[k]];
    }
    MainLoopThenTails(val1, val2);
  }

  /** Moving one bucket of a tail onto the emitted output keeps the concatenation. */
  lemma Drain(s: seq<Bucket>, k: nat, done: seq<Bucket>, rest: seq<Bucket>)
    requires k < |s|
    ensures done + (s[k..] + rest) == (done + [s[k]]) + (s[k + 1..] + rest)
  {
    assert s[k..] == [s[k]] + s[k + 1..];
  }

  /**
   * One step of the main loop from indices `i`, `j`: the bucket it emits and
   * the indices it moves to, and the same step of `Merged` on the suffixes.
   */
  lemma LoopStep(a: seq<Bucket>, b: seq<Bucket>, i: nat, j: nat) returns (next: Bucket, i': nat, j': nat)
    requires i < |a| && j < |b|
    ensures i <= i' <= |a| && j <= j' <= |b| && i + j < i' + j'
    ensures forall out :: MainLoop(a, b, i, j, out) == MainLoop(a, b, i', j', out + [next])
    ensures Merged(a[i..], b[j..]) == [next] + Merged(a[i'..], b[j'..])
  {
    assert a[i..][0] == a[i] && a[i..][1..] == a[i + 1..];
    assert b[j..][0] == b[j] && b[j..][1..] == b[j + 1..];
    if Below(a[i].upperBound, b[j].upperBound) {
      next, i', j' := a[i], i + 1, j;
    } else if Below(b[j].upperBound, a[i].upperBound) {
      next, i', j' := b[j], i, j + 1;
    } else {
      next, i', j' := Bucket(a[i].upperBound, a[i].count + b[j].count, b[j].exemplar), i + 1, j + 1;
    }
  }

  /** From any point, the rest of the main loop followed by both drained tails is the rest of the documented merge. */
  lemma {:induction false} MainLoopFrom(a: seq<Bucket>, b: seq<Bucket>, i: nat, j: nat, out: seq<Bucket>)
    requires i <= |a| && j <= |b|
    ensures var e := MainLoop(a, b, i, j, out); e.prefix + (a[e.i..] + b[e.j..]) == out + Merged(a[i..], b[j..])
    decreases |a| - i + |b| - j
  {
    if i < |a| && j < |b| {
      var next, i', j' := LoopStep(a, b, i, j);
      MainLoopFrom(a, b, i', j', out + [next]);
      Associate(out, next, Merged(a[i'..], b[j'..]));
    } else {
      assert a[i..] == [] || b[j..] == [];
    }
  }

  lemma Associate(out: seq<Bucket>, next: Bucket, rest: seq<Bucket>)
    ensures out + ([next] + rest) == (out + [next]) + rest
  {
  }

  /** The whole main loop followed by both drained tails is the documented merge. */
  lemma MainLoopThenTails(a: seq<Bucket>, b: seq<Bucket>)
    ensures var e := MainLoop(a, b, 0, 0, []); e.prefix + (a[e.i..] + b[e.j..]) == Merged(a, b)
  {
    MainLoopFrom(a, b, 0, 0, []);
    assert a[0..] == a && b[0..] == b;
  }

  /**
   * `merge_buckets` exactly as written: the second tail loop pushes `val1[j]`
   * for `j` in `j..val2.len()`; `None` is the index-out-of-bounds panic.
   */
  function MergeBucketsAsWritten(val1: seq<Bucket>, val2: seq<Bucket>): Option<seq<Bucket>> {
    var e := MainLoop(val1, val2, 0, 0, []);
    if e.j == |val2| then Some(e.prefix + val1[e.i..])
    else if |val2| > |val1| then None
    else Some(e.prefix + val1[e.i..] + val1[e.j..|val2|])
  }

  /** Whenever the main loop consumes all of `val2`, the slip is harmless. */
  lemma AsWrittenAgreesWhenVal2Consumed(a: seq<Bucket>, b: seq<Bucket>)
    requires MainLoop(a, b, 0, 0, []).j == |b|
    ensures MergeBucketsAsWritten(a, b) == Some(Merged(a, b))
  {
    MainLoopThenTails(a, b);
    var e := MainLoop(a, b, 0, 0, []);
    assert a[e.i..] + b[e.j..] == a[e.i..];
  }

  /**
   * Bounds 1, 2 against 1, 5: the written code drops the `5` bucket of `val2`
   * and emits the `2` bucket of `val1` twice; with `val2` longer than `val1`
   * it indexes past the end of `val1`.
   */
  lemma AsWrittenDropsAndDuplicates(x: Bucket, y: Bucket, u: Bucket, v: Bucket)
    requires x.upperBound == Finite(1.0) && y.upperBound == Finite(2.0)
    requires u.upperBound == Finite(1.0) && v.upperBound == Finite(5.0)
    ensures MergeBucketsAsWritten([x, y], [u, v]) == Some([Bucket(Finite(1.0), x.count + u.count, u.exemplar), y, y])
    ensures Merged([x, y], [u, v]) == [Bucket(Finite(1.0), x.count + u.count, u.exemplar), y, v]
    ensures MergeBucketsAsWritten([x], [u, v]) == None
  {
    var m := Bucket(Finite(1.0), x.count + u.count, u.exemplar);
    assert !Below(x.upperBound, u.upperBound) && !Below(u.upperBound, x.upperBound);
    assert Below(y.upperBound, v.upperBound);
    assert MainLoop([x, y], [u, v], 2, 1, [m, y]) == LoopExit([m, y], 2, 1);
    assert MainLoop([x, y], [u, v], 1, 1, [m]) == LoopExit([m, y], 2, 1);
    assert [] + [m] == [m];
    assert MainLoop([x, y], [u, v], 0, 0, []) == LoopExit([m, y], 2, 1);
    assert [x, y][2..] == [] && [x, y][1..2] == [y];
    assert [m, y] + [x, y][2..] + [x, y][1..2] == [m, y, y];
    assert [x, y][1..] == [y] && [u, v][1..] == [v];
    assert Merged([y], [v]) == [y] + Merged([], [v]) == [y, v];
    assert Merged([x, y], [u, v]) == [m] + Merged([y], [v]);
    assert MainLoop([x], [u, v], 1, 1, [m]) == LoopExit([m], 1, 1);
    assert MainLoop([x], [u, v], 0, 0, []) == LoopExit([m], 1, 1);
  }

  /** `Sorted` of a list split into its head and tail. */
  lemma SortedCons(x: Bucket, s: seq<Bucket>)
    ensures Sorted([x] + s) <==> AllAbove(x.upperBound, s) && Sorted(s)
  {
    if AllAbove(x.upperBound, s) && Sorted(s) {
      forall i, j | 0 <= i < j < |[x] + s|
        ensures Below(([x] + s)[i].upperBound, ([x] + s)[j].upperBound)
      {
        assert ([x] + s)[j] == s[j - 1];
        if i > 0 { assert ([x] + s)[i] == s[i - 1]; }
      }
    }
    if Sorted([x] + s) {
      forall k | 0 <= k < |s| ensures Below(x.upperBound, s[k].upperBound) {
        assert ([x] + s)[0] == x && ([x] + s)[k + 1] == s[k];
      }
      forall i, j | 0 <= i < j < |s| ensures Below(s[i].upperBound, s[j].upperBound) {
        assert ([x] + s)[i + 1] == s[i] && ([x] + s)[j + 1] == s[j];
      }
    }
  }

  /** A bound below every bucket of both inputs is below every bucket of their merge. */
  lemma {:induction false} MergedAbove(x: Bound, a: seq<Bucket>, b: seq<Bucket>)
    requires AllAbove(x, a) && AllAbove(x, b)
    ensures AllAbove(x, Merged(a, b))
    decreases |a| + |b|
  {
    if a == [] || b == [] {
    } else if Below(a[0].upperBound, b[0].upperBound) {
      MergedAbove(x, a[1..], b);
    } else if Below(b[0].upperBound, a[0].upperBound) {
      MergedAbove(x, a, b[1..]);
    } else {
      MergedAbove(x, a[1..], b[1..]);
    }
  }

  /** Merging two sorted bucket lists gives a sorted bucket list. */
  lemma {:induction false} MergedSorted(a: seq<Bucket>, b: seq<Bucket>)
    requires Sorted(a) && Sorted(b)
    ensures Sorted(Merged(a, b))
    decreases |a| + |b|
  {
    if a == [] || b == [] {
    } else if Below(a[0].upperBound, b[0].upperBound) {
      assert a == [a[0]] + a[1..];
      SortedCons(a[0], a[1..]);
      MergedSorted(a[1..], b);
      MergedAbove(a[0].upperBound, a[1..], b);
      SortedCons(a[0], Merged(a[1..], b));
    } else if Below(b[0].upperBound, a[0].upperBound) {
      assert b == [b[0]] + b[1..];
      SortedCons(b[0], b[1..]);
      MergedSorted(a, b[1..]);
      MergedAbove(b[0].upperBound, a, b[1..]);
      SortedCons(b[0], Merged(a, b[1..]));
    } else {
      assert a == [a[0]] + a[1..];
      assert b == [b[0]] + b[1..];
      SortedCons(a[0], a[1..]);
      SortedCons(b[0], b[1..]);
      MergedSorted(a[1..], b[1..]);
      var h := Bucket(a[0].upperBound, a[0].count + b[0].count, b[0].exemplar);
      MergedAbove(h.upperBound, a[1..], b[1..]);
      SortedCons(h, Merged(a[1..], b[1..]));
    }
  }

  /** At every bound, the merged count is the sum of the two inputs' counts there. */
  lemma {:induction false} MergedCountAt(a: seq<Bucket>, b: seq<Bucket>, x: Bound)
    ensures CountAt(Merged(a, b), x) == CountAt(a, x) + CountAt(b, x)
    decreases |a| + |b|
  {
    if a == [] || b == [] {
    } else if Below(a[0].upperBound, b[0].upperBound) {
      MergedCountAt(a[1..], b, x);
      assert ([a[0]] + Merged(a[1..], b))[1..] == Merged(a[1..], b);
    } else if Below(b[0].upperBound, a[0].upperBound) {
      MergedCountAt(a, b[1..], x);
      assert ([b[0]] + Merged(a, b[1..]))[1..] == Merged(a, b[1..]);
    } else {
      MergedCountAt(a[1..], b[1..], x);
      var h := Bucket(a[0].upperBound, a[0].count + b[0].count, b[0].exemplar);
      assert ([h] + Merged(a[1..], b[1..]))[1..] == Merged(a[1..], b[1..]);
    }
  }

  /** A bound no bucket of `s` carries has count zero. */
  lemma {:induction false} CountAtAbsent(s: seq<Bucket>, x: Bound)
    requires forall k :: 0 <= k < |s| ==> s[k].upperBound != x
    ensures CountAt(s, x) == 0.0
    decreases |s|
  {
    if s != [] {
      CountAtAbsent(s[1..], x);
    }
  }

  /** In a sorted list the count at a bucket's own bound is that bucket's count. */
  lemma {:induction false} CountAtSorted(s: seq<Bucket>, k: nat)
    requires Sorted(s) && k < |s|
    ensures CountAt(s, s[k].upperBound) == s[k].count
    decreases |s|
  {
    assert s == [s[0]] + s[1..];
    SortedCons(s[0], s[1..]);
    if k == 0 {
      CountAtAbsent(s[1..], s[0].upperBound);
    } else {
      CountAtSorted(s[1..], k - 1);
    }
  }

  /**
   * For sorted inputs, every bucket of the merge carries the sum of the two
   * inputs' counts at its bound (zero for a side that lacks the bound).
   */
  lemma MergedBucketCount(a: seq<Bucket>, b: seq<Bucket>, k: nat)
    requires Sorted(a) && Sorted(b) && k < |Merged(a, b)|
    ensures var m := Merged(a, b); m[k].count == CountAt(a, m[k].upperBound) + CountAt(b, m[k].upperBound)
  {
    MergedSorted(a, b);
    CountAtSorted(Merged(a, b), k);
    MergedCountAt(a, b, Merged(a, b)[k].upperBound);
  }

  /**
   * Buckets of sorted inputs that share a bound come out as one bucket with
   * the summed count and the second list's exemplar.
   */
  lemma {:induction false} MergedSharedBound(a: seq<Bucket>, b: seq<Bucket>, p: nat, q: nat)
    requires Sorted(a) && Sorted(b) && p < |a| && q < |b|
    requires a[p].upperBound == b[q].upperBound
    ensures Bucket(a[p].upperBound, a[p].count + b[q].count, b[q].exemplar) in Merged(a, b)
    decreases |a| + |b|
  {
    if Below(a[0].upperBound, b[0].upperBound) {
      assert p != 0 by { if q != 0 { assert Below(b[0].upperBound, b[q].upperBound); } }
      MergedSharedBound(a[1..], b, p - 1, q);
    } else if Below(b[0].upperBound, a[0].upperBound) {
      assert q != 0 by { if p != 0 { assert Below(a[0].upperBound, a[p].upperBound); } }
      MergedSharedBound(a, b[1..], p, q - 1);
    } else if p != 0 && q != 0 {
      MergedSharedBound(a[1..], b[1..], p - 1, q - 1);
    }
  }

  /** A bucket of the first sorted list whose bound the second lacks comes out unchanged. */
  lemma {:induction false} MergedKeepsFirstOnly(a: seq<Bucket>, b: seq<Bucket>, p: nat)
    requires Sorted(a) && Sorted(b) && p < |a|
    requires forall q :: 0 <= q < |b| ==> b[q].upperBound != a[p].upperBound
    ensures a[p] in Merged(a, b)
    decreases |a| + |b|
  {
    if b == [] {
    } else if Below(a[0].upperBound, b[0].upperBound) {
      if p != 0 { MergedKeepsFirstOnly(a[1..], b, p - 1); }
    } else if Below(b[0].upperBound, a[0].upperBound) {
      MergedKeepsFirstOnly(a, b[1..], p);
    } else {
      assert p != 0;
      MergedKeepsFirstOnly(a[1..], b[1..], p - 1);
    }
  }

  /** A bucket of the second sorted list whose bound the first lacks comes out unchanged. */
  lemma {:induction false} MergedKeepsSecondOnly(a: seq<Bucket>, b: seq<Bucket>, q: nat)
    requires Sorted(a) && Sorted(b) && q < |b|
    requires forall p :: 0 <= p < |a| ==> a[p].upperBound != b[q].upperBound
    ensures b[q] in Merged(a, b)
    decreases |a| + |b|
  {
    if a == [] {
    } else if Below(a[0].upperBound, b[0].upperBound) {
      MergedKeepsSecondOnly(a[1..], b, q);
    } else if Below(b[0].upperBound, a[0].upperBound) {
      if q != 0 { MergedKeepsSecondOnly(a, b[1..], q - 1); }
    } else {
      assert q != 0;
      MergedKeepsSecondOnly(a[1..], b[1..], q - 1);
    }
  }

  /** Merging with an empty list on either side returns the other list. */
  lemma MergedIdentity(a: seq<Bucket>)
    ensures Merged(a, []) == a && Merged([], a) == a
  {
  }

  /** The upper bounds occurring in `s`. */
  function Bounds(s: seq<Bucket>): set<Bound> {
    set k | 0 <= k < |s| :: s[k].upperBound
  }

  /** The bounds of a list split into its head and tail. */
  lemma BoundsCons(x: Bucket, s: seq<Bucket>)
    ensures Bounds([x] + s) == {x.upperBound} + Bounds(s)
  {
    forall y | y in Bounds([x] + s) ensures y in {x.upperBound} + Bounds(s) {
      var k :| 0 <= k < |[x] + s| && ([x] + s)[k].upperBound == y;
      if k > 0 { assert ([x] + s)[k] == s[k - 1]; }
    }
    forall y | y in Bounds(s) ensures y in Bounds([x] + s) {
      var k :| 0 <= k < |s| && s[k].upperBound == y;
      assert ([x] + s)[k + 1] == s[k];
    }
    assert ([x] + s)[0] == x;
  }

  /** The merge emits exactly the bounds of its two inputs: none is lost and none invented. */
  lemma {:induction false} MergedBounds(a: seq<Bucket>, b: seq<Bucket>)
    ensures Bounds(Merged(a, b)) == Bounds(a) + Bounds(b)
    decreases |a| + |b|
  {
    if a != [] && b != [] {
      assert a == [a[0]] + a[1..];
      assert b == [b[0]] + b[1..];
      BoundsCons(a[0], a[1..]);
      BoundsCons(b[0], b[1..]);
      if Below(a[0].upperBound, b[0].upperBound) {
        MergedBounds(a[1..], b);
        BoundsCons(a[0], Merged(a[1..], b));
      } else if Below(b[0].upperBound, a[0].upperBound) {
        MergedBounds(a, b[1..]);
        BoundsCons(b[0], Merged(a, b[1..]));
      } else {
        assert a[0].upperBound == b[0].upperBound;
        MergedBounds(a[1..], b[1..]);
        BoundsCons(Bucket(a[0].upperBound, a[0].count + b[0].count, b[0].exemplar), Merged(a[1..], b[1..]));
      }
    }
  }
}
