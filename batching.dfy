/** How an epoch's list of positive pairs is cut into batches, and the label
    column that goes with a batch. */
module Batching {

  /** No element occurs twice. */
  ghost predicate NoDuplicates<T>(s: seq<T>)
  {
    forall i, j :: 0 <= i < j < |s| ==> s[i] != s[j]
  }

  lemma RepeatedElementCount<T>(s: seq<T>, i: nat, j: nat)
    requires i < j < |s|
    ensures s[i] == s[j] ==> multiset(s)[s[i]] >= 2
  {
    assert s == s[..i] + [s[i]] + s[i+1..j] + [s[j]] + s[j+1..];
  }

  /** A list whose multiset of elements is that of a set has no duplicates. */
  lemma EnumerationHasNoDuplicates<T>(s: seq<T>, elems: set<T>)
    requires multiset(s) == multiset(elems)
    ensures NoDuplicates(s)
    ensures |s| == |elems|
    ensures forall x :: x in s <==> x in elems
  {
    forall i, j | 0 <= i < j < |s|
      ensures s[i] != s[j]
    {
      RepeatedElementCount(s, i, j);
      assert multiset(elems)[s[i]] <= 1;
    }
    assert |s| == |multiset(s)| == |multiset(elems)| == |elems|;
    forall x
      ensures x in s <==> x in elems
    {
      assert x in s <==> x in multiset(s);
      assert x in elems <==> x in multiset(elems);
    }
  }

  /** Number of batches in an epoch: the total divided by the batch size,
      rounded down, so fewer than `size` pairs are left over. */
  function BatchCount(total: nat, size: nat): (n: nat)
    requires size > 0
    ensures n * size <= total < n * size + size
  {
    total / size
  }

  /** Python's `s[lo:hi]` for non-negative bounds: both bounds are clamped to
      the length of `s`, and the slice is empty when `lo >= hi`. */
  function PySlice<T>(s: seq<T>, lo: nat, hi: nat): (r: seq<T>)
    ensures hi <= |s| && lo <= hi ==> r == s[lo..hi]
    ensures |r| == if lo < hi && lo < |s| then (if hi < |s| then hi else |s|) - lo else 0
    ensures forall k :: 0 <= k < |r| ==> lo + k < |s| && r[k] == s[lo + k]
  {
    var h := if hi < |s| then hi else |s|;
    var l := if lo < h then lo else h;
    s[l..h]
  }

  /** The positive pairs of batch `index`: at most `size` of them, taken in
      order from position `size * index` on. */
  function BatchSlice<T>(s: seq<T>, size: nat, index: nat): (r: seq<T>)
    ensures |r| <= size
    ensures |r| == if size * index < |s| then (if size * (index + 1) < |s| then size else |s| - size * index) else 0
    ensures forall k :: 0 <= k < |r| ==> r[k] == s[size * index + k]
  {
    PySlice(s, size * index, size * (index + 1))
  }

  /** Multiplication by a batch size is monotone; the solver needs this
      product bound named to separate two batches. */
  lemma MulMonotone(size: nat, a: nat, b: nat)
    requires a <= b
    ensures size * a <= size * b
  {
  }

  /** A batch within the batch count is exactly the `size` pairs starting at
      `size * index`. */
  lemma BatchSliceInRange<T>(s: seq<T>, size: nat, index: nat)
    requires size > 0 && index < BatchCount(|s|, size)
    ensures size * (index + 1) <= size * BatchCount(|s|, size) <= |s|
    ensures BatchSlice(s, size, index) == s[size * index .. size * (index + 1)]
    ensures |BatchSlice(s, size, index)| == size
  {
  }

  /** A batch index at or beyond the batch count yields fewer than `size`
      pairs: the leftover pairs alone never make up a full batch. */
  lemma BatchSliceOutOfRange<T>(s: seq<T>, size: nat, index: nat)
    requires size > 0 && index >= BatchCount(|s|, size)
    ensures |BatchSlice(s, size, index)| < size
  {
  }

  /** Pairs at positions from `size * BatchCount` on are never served by a
      batch within the count. */
  lemma {:induction false} LeftoverNeverServed<T>(s: seq<T>, size: nat, index: nat, k: nat)
    requires size > 0 && NoDuplicates(s)
    requires index < BatchCount(|s|, size)
    requires size * BatchCount(|s|, size) <= k < |s|
    ensures s[k] !in BatchSlice(s, size, index)
  {
    BatchSliceInRange(s, size, index);
  }

  /** Two different batches within the count share no pair. */
  lemma {:induction false} BatchSlicesDisjoint<T>(s: seq<T>, size: nat, i: nat, j: nat)
    requires size > 0 && NoDuplicates(s)
    requires i < BatchCount(|s|, size) && j < BatchCount(|s|, size) && i != j
    ensures forall x :: x in BatchSlice(s, size, i) ==> x !in BatchSlice(s, size, j)
  {
    BatchSliceInRange(s, size, i);
    BatchSliceInRange(s, size, j);
    var a := BatchSlice(s, size, i);
    var b := BatchSlice(s, size, j);
    if i < j {
      MulMonotone(size, i + 1, j);
    } else {
      MulMonotone(size, j + 1, i);
    }
    forall p, q | 0 <= p < |a| && 0 <= q < |b|
      ensures a[p] != b[q]
    {
      assert a[p] == s[size * i + p] && b[q] == s[size * j + q];
      assert size * i + p != size * j + q;
    }
  }

  /** The label column: `pos` ones followed by `neg` zeros. */
  function Labels(pos: nat, neg: nat): (r: seq<int>)
    ensures |r| == pos + neg
    ensures forall i :: 0 <= i < pos ==> r[i] == 1
    ensures forall i :: pos <= i < pos + neg ==> r[i] == 0
  {
    seq(pos, _ => 1) + seq(neg, _ => 0)
  }
}
