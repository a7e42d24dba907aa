/**
 * Progress aggregation of a savings plan: the completed sum over the marked
 * boxes, the percentage of the objective, the box counts, and the write of
 * that snapshot into the saved-plan list.
 *
 * Amounts are euros as exact reals.  The amount sequence is an input: the
 * generator that produces it is not part of this model.
 */
module Progress {
  import opened Storage

  /** The progress record the savings page computes. */
  datatype Snapshot = Snapshot(
    completed: real,
    total: real,
    percentage: real,
    completedBoxes: nat,
    totalBoxes: nat)

  /** The amount of box `i`, or 0 for an index outside the sequence (the `|| 0`). */
  function AmountAt(amounts: seq<real>, i: int): real {
    if 0 <= i < |amounts| then amounts[i] else 0.0
  }

  predicate NonNegative(amounts: seq<real>) {
    forall i :: 0 <= i < |amounts| ==> amounts[i] >= 0.0
  }

  /** Sum of every amount. */
  function Total(amounts: seq<real>): real {
    if amounts == [] then 0.0 else Total(amounts[..|amounts| - 1]) + amounts[|amounts| - 1]
  }

  /**
   * Reference definition of the completed sum: the amounts at the in-range
   * indices that are marked, added up index by index.
   */
  function MarkedSum(amounts: seq<real>, marked: set<int>): real {
    if amounts == [] then 0.0
    else
      var n := |amounts| - 1;
      MarkedSum(amounts[..n], marked) + (if n in marked then amounts[n] else 0.0)
  }

  lemma {:induction false} MarkedSumEmpty(amounts: seq<real>)
    ensures MarkedSum(amounts, {}) == 0.0
  {
    if amounts != [] {
      MarkedSumEmpty(amounts[..|amounts| - 1]);
    }
  }

  /**
   * Marking one more index adds exactly its amount; in particular an index
   * outside the sequence adds nothing.
   */
  lemma {:induction false} MarkedSumInsert(amounts: seq<real>, marked: set<int>, i: int)
    requires i !in marked
    ensures MarkedSum(amounts, marked + {i}) == MarkedSum(amounts, marked) + AmountAt(amounts, i)
  {
    if amounts != [] {
      var n := |amounts| - 1;
      MarkedSumInsert(amounts[..n], marked, i);
    }
  }

  /** Out-of-range indices in the marked set do not change the completed sum. */
  lemma {:induction false} MarkedSumIgnoresOutOfRange(amounts: seq<real>, marked: set<int>)
    ensures MarkedSum(amounts, marked) == MarkedSum(amounts, set i | i in marked && 0 <= i < |amounts|)
  {
    if amounts != [] {
      var n := |amounts| - 1;
      MarkedSumIgnoresOutOfRange(amounts[..n], marked);
      var inRange := set i | i in marked && 0 <= i < |amounts|;
      MarkedSumIgnoresOutOfRange(amounts[..n], inRange);
      assert (set i | i in inRange && 0 <= i < n) == (set i | i in marked && 0 <= i < n);
    }
  }

  /** With no negative amount, marking more never lowers the completed sum. */
  lemma {:induction false} MarkedSumMonotone(amounts: seq<real>, small: set<int>, large: set<int>)
    requires NonNegative(amounts)
    requires small <= large
    ensures MarkedSum(amounts, small) <= MarkedSum(amounts, large)
  {
    if amounts != [] {
      MarkedSumMonotone(amounts[..|amounts| - 1], small, large);
    }
  }

  /**
   * With no negative amount the completed sum lies between 0 and the sum of
   * all amounts, and reaches that sum once every box is marked.
   */
  lemma {:induction false} MarkedSumBounds(amounts: seq<real>, marked: set<int>)
    requires NonNegative(amounts)
    ensures 0.0 <= MarkedSum(amounts, marked) <= Total(amounts)
    ensures (forall i :: 0 <= i < |amounts| ==> i in marked) ==> MarkedSum(amounts, marked) == Total(amounts)
  {
    if amounts != [] {
      MarkedSumBounds(amounts[..|amounts| - 1], marked);
    }
  }

  /**
   * The completed sum as the page computes it: a fold over the marked set,
   * taking its elements in whatever order the set yields them.
   */
  method SumMarked(amounts: seq<real>, marked: set<int>) returns (sum: real)
    ensures sum == MarkedSum(amounts, marked)
  {
    sum := 0.0;
    var rest := marked;
    MarkedSumEmpty(amounts);
    assert marked - rest == {};
    while rest != {}
      invariant rest <= marked
      invariant sum == MarkedSum(amounts, marked - rest)
      decreases |rest|
    {
      assert (forall j :: j !in rest) ==> rest == {};
      var i :| i in rest;
      MarkedSumInsert(amounts, marked - rest, i);
      assert (marked - rest) + {i} == marked - (rest - {i});
      sum := sum + AmountAt(amounts, i);
      rest := rest - {i};
    }
    assert marked - rest == marked;
  }

  /** `completed / objective * 100`, or 0 when there is no positive objective. */
  function Percentage(completed: real, objective: real): (p: real)
    ensures objective <= 0.0 ==> p == 0.0
    ensures objective > 0.0 ==> p * objective == 100.0 * completed
  {
    if objective > 0.0 then completed / objective * 100.0 else 0.0
  }

  /**
   * A percentage reaches a threshold exactly when the cross-multiplied sums
   * do, so milestones can be read off the amounts without a division.
   */
  lemma PercentageReaches(completed: real, objective: real, t: real)
    requires objective > 0.0
    ensures Percentage(completed, objective) >= t <==> 100.0 * completed >= t * objective
    ensures Percentage(completed, objective) <= t <==> 100.0 * completed <= t * objective
  {
  }

  /** A larger completed sum never gives a smaller percentage. */
  lemma PercentageMonotone(c1: real, c2: real, objective: real)
    requires c1 <= c2
    ensures Percentage(c1, objective) <= Percentage(c2, objective)
  {
  }

  /** The progress percentage of a marked set. */
  function MarkedPercentage(amounts: seq<real>, objective: real, marked: set<int>): real {
    Percentage(MarkedSum(amounts, marked), objective)
  }

  /**
   * The snapshot the page shows: completed sum over the marked boxes, the
   * objective as total, the percentage, and the two box counts.
   */
  function SnapshotOf(amounts: seq<real>, marked: set<int>, objective: real): (s: Snapshot)
    ensures s.completed == MarkedSum(amounts, marked)
    ensures s.total == objective
    ensures objective <= 0.0 ==> s.percentage == 0.0
    ensures objective > 0.0 ==> s.percentage * objective == 100.0 * s.completed
    ensures s.completedBoxes == |marked| && s.totalBoxes == |amounts|
    ensures marked == {} ==> s.completed == 0.0 && s.percentage == 0.0
  {
    MarkedSumEmpty(amounts);
    var completed := MarkedSum(amounts, marked);
    Snapshot(completed, objective, Percentage(completed, objective), |marked|, |amounts|)
  }

  /**
   * When the amounts are non-negative and add up to the objective, the
   * percentage stays within [0, 100] and is 100 once every box is marked.
   */
  lemma SnapshotPercentageInRange(amounts: seq<real>, marked: set<int>, objective: real)
    requires NonNegative(amounts) && objective > 0.0 && Total(amounts) == objective
    ensures 0.0 <= SnapshotOf(amounts, marked, objective).percentage <= 100.0
    ensures (forall i :: 0 <= i < |amounts| ==> i in marked) ==> SnapshotOf(amounts, marked, objective).percentage == 100.0
  {
    MarkedSumBounds(amounts, marked);
    var c := MarkedSum(amounts, marked);
    PercentageReaches(c, objective, 100.0);
    PercentageReaches(c, objective, 0.0);
  }

  /** The part of a snapshot that the saved-plan record keeps. */
  function ToSummary(s: Snapshot): Summary {
    Summary(s.completed, s.percentage, s.completedBoxes, s.totalBoxes)
  }

  /**
   * The saved-plan list after the page writes its progress: every entry with
   * the page's id gets the new summary, every other entry is untouched, and
   * length and order stay the same.
   */
  function WithProgress(saved: seq<SavedSaving>, id: string, summary: Summary): (r: seq<SavedSaving>)
    ensures |r| == |saved|
    ensures forall k :: 0 <= k < |r| ==>
      r[k].id == saved[k].id && r[k].objective == saved[k].objective && r[k].createdAt == saved[k].createdAt
    ensures forall k :: 0 <= k < |r| && saved[k].id == id ==> r[k].progress == summary
    ensures forall k :: 0 <= k < |r| && saved[k].id != id ==> r[k] == saved[k]
  {
    if saved == [] then []
    else
      var head := if saved[0].id == id then saved[0].(progress := summary) else saved[0];
      [head] + WithProgress(saved[1..], id, summary)
  }

  /** Writing the same summary twice is the same as writing it once. */
  lemma WithProgressIdempotent(saved: seq<SavedSaving>, id: string, summary: Summary)
    ensures WithProgress(WithProgress(saved, id, summary), id, summary) == WithProgress(saved, id, summary)
  {
  }

  /** A plan that is not in the list (deleted, or never saved) is not added back by the write. */
  lemma WithProgressAbsent(saved: seq<SavedSaving>, id: string, summary: Summary)
    requires forall k :: 0 <= k < |saved| ==> saved[k].id != id
    ensures WithProgress(saved, id, summary) == saved
  {
  }
}
