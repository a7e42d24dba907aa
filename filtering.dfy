/**
 * The box filter of the savings page: every index, the marked ones, the
 * unmarked ones, or the ones whose amount falls in one of four bands, always
 * in increasing index order.
 */
module Filtering {
  import opened Wrappers

  datatype FilterType = All | Completed | Pending | InRange

  /** The amount bands `0-10`, `10-50`, `50-100` and `100+`. */
  datatype RangeType = UpTo10 | From10To50 | From50To100 | Over100

  /** The bound a band's amounts lie strictly above; the lowest band has none. */
  function LowerBound(band: RangeType): Option<real> {
    match band
    case UpTo10 => None
    case From10To50 => Some(10.0)
    case From50To100 => Some(50.0)
    case Over100 => Some(100.0)
  }

  /** The bound a band's amounts lie at or below; the highest band has none. */
  function UpperBound(band: RangeType): Option<real> {
    match band
    case UpTo10 => Some(10.0)
    case From10To50 => Some(50.0)
    case From50To100 => Some(100.0)
    case Over100 => None
  }

  /**
   * Whether an amount falls in a band: each band is the half-open interval
   * (lower, upper] of its bounds, so a boundary amount such as 10 belongs to
   * the band below it.
   */
  predicate InBand(amount: real, band: RangeType)
    ensures InBand(amount, band) <==>
      (LowerBound(band).Some? ==> LowerBound(band).value < amount) &&
      (UpperBound(band).Some? ==> amount <= UpperBound(band).value)
  {
    match band
    case UpTo10 => amount <= 10.0
    case From10To50 => amount > 10.0 && amount <= 50.0
    case From50To100 => amount > 50.0 && amount <= 100.0
    case Over100 => amount > 100.0
  }

  /** Every amount lies in exactly one band: the bands are disjoint and cover all amounts. */
  function BandOf(amount: real): (b: RangeType)
    ensures InBand(amount, b)
    ensures forall other :: InBand(amount, other) ==> other == b
  {
    if amount <= 10.0 then UpTo10
    else if amount <= 50.0 then From10To50
    else if amount <= 100.0 then From50To100
    else Over100
  }

  predicate StrictlyIncreasing(s: seq<nat>) {
    forall j, k :: 0 <= j < k < |s| ==> s[j] < s[k]
  }

  /** Whether the filter keeps box `i`. */
  predicate Keeps(amounts: seq<real>, marked: set<int>, filter: FilterType, band: RangeType, i: nat)
    requires i < |amounts|
  {
    match filter
    case All => true
    case Completed => i in marked
    case Pending => i !in marked
    case InRange => InBand(amounts[i], band)
  }

  /** The kept indices below `n`, in increasing order. */
  function Select(amounts: seq<real>, marked: set<int>, filter: FilterType, band: RangeType, n: nat): (r: seq<nat>)
    requires n <= |amounts|
    ensures StrictlyIncreasing(r)
    ensures forall k :: 0 <= k < |r| ==> r[k] < n
    ensures forall i: nat :: i in r <==> i < n && Keeps(amounts, marked, filter, band, i)
  {
    if n == 0 then []
    else
      Select(amounts, marked, filter, band, n - 1)
      + (if Keeps(amounts, marked, filter, band, n - 1) then [n - 1] else [])
  }

  /** The box indices the page shows for a filter and band. */
  function FilteredBoxes(amounts: seq<real>, marked: set<int>, filter: FilterType, band: RangeType): (r: seq<nat>)
    ensures StrictlyIncreasing(r)
    ensures filter == All ==> |r| == |amounts| && forall k :: 0 <= k < |r| ==> r[k] == k
    ensures filter == Completed ==> forall i: nat :: i in r <==> i < |amounts| && i in marked
    ensures filter == Pending ==> forall i: nat :: i in r <==> i < |amounts| && i !in marked
    ensures filter == InRange ==> forall i: nat :: i in r <==> i < |amounts| && InBand(amounts[i], band)
  {
    if filter == All then seq(|amounts|, k => k)
    else Select(amounts, marked, filter, band, |amounts|)
  }

  /**
   * A strictly increasing sequence is fixed by its elements, so the
   * membership and order stated for FilteredBoxes determine its result.
   */
  lemma {:induction false} IncreasingUnique(a: seq<nat>, b: seq<nat>)
    requires StrictlyIncreasing(a) && StrictlyIncreasing(b)
    requires forall x :: x in a <==> x in b
    ensures a == b
  {
    assert a != [] ==> a[0] in b;
    assert b != [] ==> b[0] in a;
    if a != [] && b != [] {
      var la, lb := a[|a| - 1], b[|b| - 1];
      // the last element is the largest on both sides
      assert la in b && lb in a;
      assert la == lb by {
        var ja :| 0 <= ja < |a| && a[ja] == lb;
        var jb :| 0 <= jb < |b| && b[jb] == la;
        assert la >= lb && lb >= la;
      }
      var a', b' := a[..|a| - 1], b[..|b| - 1];
      forall x
        ensures x in a' <==> x in b'
      {
        if x in a' {
          var j :| 0 <= j < |a'| && a'[j] == x;
          assert x < la;
        }
        if x in b' {
          var j :| 0 <= j < |b'| && b'[j] == x;
          assert x < lb;
        }
        assert x in a ==> x in a' || x == la;
        assert x in b ==> x in b' || x == lb;
      }
      IncreasingUnique(a', b');
      assert a == a' + [la] && b == b' + [lb];
    }
  }

  lemma {:induction false} SelectCompletedPendingCount(amounts: seq<real>, marked: set<int>, band: RangeType, n: nat)
    requires n <= |amounts|
    ensures |Select(amounts, marked, Completed, band, n)| + |Select(amounts, marked, Pending, band, n)| == n
  {
    if n > 0 {
      SelectCompletedPendingCount(amounts, marked, band, n - 1);
      var c := Select(amounts, marked, Completed, band, n - 1);
      var p := Select(amounts, marked, Pending, band, n - 1);
      if n - 1 in marked {
        assert Select(amounts, marked, Completed, band, n) == c + [n - 1];
        assert Select(amounts, marked, Pending, band, n) == p;
      } else {
        assert Select(amounts, marked, Completed, band, n) == c;
        assert Select(amounts, marked, Pending, band, n) == p + [n - 1];
      }
    }
  }

  /**
   * The `completed` and `pending` views partition the boxes: no index is in
   * both, every index is in one, and together they hold exactly as many
   * indices as there are boxes.
   */
  lemma CompletedPendingPartition(amounts: seq<real>, marked: set<int>, band: RangeType)
    ensures forall i :: !(i in FilteredBoxes(amounts, marked, Completed, band) && i in FilteredBoxes(amounts, marked, Pending, band))
    ensures forall i: nat :: i < |amounts| ==>
      i in FilteredBoxes(amounts, marked, Completed, band) || i in FilteredBoxes(amounts, marked, Pending, band)
    ensures |FilteredBoxes(amounts, marked, Completed, band)| + |FilteredBoxes(amounts, marked, Pending, band)| == |amounts|
  {
    SelectCompletedPendingCount(amounts, marked, band, |amounts|);
  }

  lemma {:induction false} SelectBandsCount(amounts: seq<real>, marked: set<int>, n: nat)
    requires n <= |amounts|
    ensures |Select(amounts, marked, InRange, UpTo10, n)| + |Select(amounts, marked, InRange, From10To50, n)|
          + |Select(amounts, marked, InRange, From50To100, n)| + |Select(amounts, marked, InRange, Over100, n)| == n
  {
    if n > 0 {
      SelectBandsCount(amounts, marked, n - 1);
      var b := BandOf(amounts[n - 1]);
    }
  }

  /**
   * The four `range` views partition the boxes: each index is shown under
   * exactly the band of its amount, and the four views together hold as
   * many indices as there are boxes.
   */
  lemma RangePartition(amounts: seq<real>, marked: set<int>)
    ensures forall i: nat, band :: i < |amounts| ==>
      (i in FilteredBoxes(amounts, marked, InRange, band) <==> band == BandOf(amounts[i]))
    ensures |FilteredBoxes(amounts, marked, InRange, UpTo10)| + |FilteredBoxes(amounts, marked, InRange, From10To50)|
          + |FilteredBoxes(amounts, marked, InRange, From50To100)| + |FilteredBoxes(amounts, marked, InRange, Over100)|
          == |amounts|
  {
    SelectBandsCount(amounts, marked, |amounts|);
  }

  /** Band `0-10` over the amounts 5, 8, 12, 50 shows the first two boxes. */
  lemma SmallBandExample()
    ensures FilteredBoxes([5.0, 8.0, 12.0, 50.0], {}, InRange, UpTo10) == [0, 1]
  {
    var r := FilteredBoxes([5.0, 8.0, 12.0, 50.0], {}, InRange, UpTo10);
    assert 0 in r && 1 in r && 2 !in r && 3 !in r;
    IncreasingUnique(r, [0, 1]);
  }

  /** Band `100+` over the amounts 5, 8, 120 shows only the last box. */
  lemma LargeBandExample()
    ensures FilteredBoxes([5.0, 8.0, 120.0], {}, InRange, Over100) == [2]
  {
    var r := FilteredBoxes([5.0, 8.0, 120.0], {}, InRange, Over100);
    assert 0 !in r && 1 !in r && 2 in r;
    IncreasingUnique(r, [2]);
  }
}
