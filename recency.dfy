/** The recency lookup of the batch generator: where a question's answer date
    falls among a professional's sorted answer timestamps, and the latest of
    those timestamps strictly before it. Timestamps are plain integers. */
module Recency {

  /** Non-decreasing order, the order of a professional's answer timestamps. */
  ghost predicate Sorted(a: seq<int>)
  {
    forall i, j :: 0 <= i < j < |a| ==> a[i] <= a[j]
  }

  /** `k` is the leftmost insertion point of `x` in `a`: everything before it
      is smaller than `x`, everything from it on is at least `x`. */
  ghost predicate IsLeftInsertionPoint(a: seq<int>, x: int, k: int)
  {
    0 <= k <= |a| &&
    (forall i :: 0 <= i < k ==> a[i] < x) &&
    (forall i :: k <= i < |a| ==> a[i] >= x)
  }

  /** Binary search on the half-open window [lo, hi) whose outside is already
      classified: below `lo` every element is smaller than `x`, from `hi` on
      every element is at least `x`. */
  function SearchWindow(a: seq<int>, x: int, lo: nat, hi: nat): (k: nat)
    requires Sorted(a)
    requires lo <= hi <= |a|
    requires forall i :: 0 <= i < lo ==> a[i] < x
    requires forall i :: hi <= i < |a| ==> a[i] >= x
    ensures lo <= k <= hi
    ensures IsLeftInsertionPoint(a, x, k)
    decreases hi - lo
  {
    if lo == hi then lo
    else
      var mid := (lo + hi) / 2;
      if a[mid] < x then SearchWindow(a, x, mid + 1, hi)
      else SearchWindow(a, x, lo, mid)
  }

  /** `searchsorted(a, x)` with side "left". */
  function SearchSortedLeft(a: seq<int>, x: int): (k: nat)
    requires Sorted(a)
    ensures IsLeftInsertionPoint(a, x, k)
  {
    SearchWindow(a, x, 0, |a|)
  }

  /** The pair (timestamp, valid) returned by the lookup. */
  datatype LastDate = LastDate(date: int, valid: bool)

  /** The latest of `proDates` strictly before `ansDate`, marked valid; when
      there is none, `ansDate` itself, marked invalid. */
  function LastAnswerBefore(proDates: seq<int>, ansDate: int): (r: LastDate)
    requires Sorted(proDates)
    ensures !r.valid <==> forall i :: 0 <= i < |proDates| ==> proDates[i] >= ansDate
    ensures !r.valid ==> r.date == ansDate
    ensures r.valid ==> r.date < ansDate && r.date in proDates
    ensures r.valid ==> forall i :: 0 <= i < |proDates| && proDates[i] < ansDate ==> proDates[i] <= r.date
  {
    var index := SearchSortedLeft(proDates, ansDate);
    if index == 0 then LastDate(ansDate, false)
    else LastDate(proDates[index - 1], true)
  }

  /** The two worked cases: [10, 20, 30] looked up at 25 gives (20, valid),
      looked up at 5 gives (5, invalid). */
  lemma LastAnswerBeforeExamples()
    ensures LastAnswerBefore([10, 20, 30], 25) == LastDate(20, true)
    ensures LastAnswerBefore([10, 20, 30], 5) == LastDate(5, false)
  {
    var a := [10, 20, 30];
    var r := LastAnswerBefore(a, 25);
    assert a[1] < 25;
    assert r.date in a && r.date < 25;
  }
}
