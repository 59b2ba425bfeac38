/**
 * The last step of `_get_bars_in_days` (lines 79-81 of mongo.py): the bars
 * are cut to the window [start, end] with `np.searchsorted` on their packed
 * `datetime` column, side "left" for the start and side "right" for the end,
 * and sliced `bars[s_pos:e_pos]`.
 */
module WindowTrimmer {
  import opened BarTable

  datatype Side = Left | Right

  /** The times of the bars, i.e. `bars["datetime"]`. */
  function Times<T>(bars: seq<Bar<T>>): (r: seq<int>)
    ensures |r| == |bars| && forall i :: 0 <= i < |bars| ==> r[i] == bars[i].time
  {
    seq(|bars|, i requires 0 <= i < |bars| => bars[i].time)
  }

  predicate Ascending(xs: seq<int>) {
    forall i, j :: 0 <= i < j < |xs| ==> xs[i] <= xs[j]
  }

  /** Whether `x` goes before the insertion point of `v`: strictly less for "left", not greater for "right". */
  predicate Precedes(x: int, v: int, side: Side) {
    if side == Left then x < v else x <= v
  }

  /** Every element before `lo` precedes `v` and none from `hi` on does. */
  predicate Brackets(xs: seq<int>, v: int, side: Side, lo: nat, hi: nat) {
    && (forall j :: 0 <= j < lo && j < |xs| ==> Precedes(xs[j], v, side))
    && (forall j :: hi <= j < |xs| ==> !Precedes(xs[j], v, side))
  }

  /**
   * Bisection over xs[lo..hi]. When xs is sorted and [lo, hi] brackets the
   * insertion point, the result is the insertion point itself.
   */
  function Bisect(xs: seq<int>, v: int, side: Side, lo: nat, hi: nat): (i: nat)
    requires lo <= hi <= |xs|
    ensures lo <= i <= hi
    ensures Ascending(xs) && Brackets(xs, v, side, lo, hi) ==> Brackets(xs, v, side, i, i)
    decreases hi - lo
  {
    if lo == hi then lo
    else
      var mid := (lo + hi) / 2;
      BisectStep(xs, v, side, lo, hi, mid);
      if Precedes(xs[mid], v, side) then Bisect(xs, v, side, mid + 1, hi)
      else Bisect(xs, v, side, lo, mid)
  }

  /** Testing the middle element narrows the bracket on a sorted sequence. */
  lemma BisectStep(xs: seq<int>, v: int, side: Side, lo: nat, hi: nat, mid: nat)
    requires lo <= mid < hi <= |xs|
    ensures Ascending(xs) && Brackets(xs, v, side, lo, hi) ==>
      if Precedes(xs[mid], v, side) then Brackets(xs, v, side, mid + 1, hi) else Brackets(xs, v, side, lo, mid)
  {
    if Ascending(xs) && Brackets(xs, v, side, lo, hi) {
      if Precedes(xs[mid], v, side) {
        forall j | 0 <= j < mid + 1 ensures Precedes(xs[j], v, side) {
          assert j < lo || xs[j] <= xs[mid];
        }
      } else {
        forall j | mid <= j < |xs| ensures !Precedes(xs[j], v, side) {
          assert j >= hi || xs[mid] <= xs[j];
        }
      }
    }
  }

  /**
   * `np.searchsorted(xs, v, side)`: on sorted input, the first index whose
   * element is >= v ("left") or > v ("right"); |xs| when there is none.
   */
  function SearchSorted(xs: seq<int>, v: int, side: Side): (i: nat)
    ensures i <= |xs|
    ensures Ascending(xs) ==>
      && (forall j :: 0 <= j < i ==> Precedes(xs[j], v, side))
      && (forall j :: i <= j < |xs| ==> !Precedes(xs[j], v, side))
  {
    Bisect(xs, v, side, 0, |xs|)
  }

  /** The reference definition: the bars whose time lies in [start, end], in their order. */
  function InWindow<T>(bars: seq<Bar<T>>, start: int, end: int): (r: seq<Bar<T>>)
    ensures |r| <= |bars|
    ensures forall i :: 0 <= i < |r| ==> start <= r[i].time <= end
    decreases |bars|
  {
    if bars == [] then []
    else
      var rest := InWindow(bars[1..], start, end);
      if start <= bars[0].time <= end then [bars[0]] + rest else rest
  }

  /**
   * Lines 79-81: `bars[s_pos:e_pos]` with the two searchsorted positions (a
   * slice whose start lies past its end is empty). On bars sorted by time
   * this is exactly the bars inside the window, in order; an empty table
   * gives an empty result.
   */
  function Trim<T>(bars: seq<Bar<T>>, start: int, end: int): (r: seq<Bar<T>>)
    ensures Sorted(bars) ==> r == InWindow(bars, start, end) && Sorted(r)
  {
    var times := Times(bars);
    var sPos := SearchSorted(times, start, Left);
    var ePos := SearchSorted(times, end, Right);
    TrimIsWindow(bars, start, end, sPos, ePos);
    if sPos <= ePos then bars[sPos..ePos] else []
  }

  /** The positions searchsorted finds cut sorted bars into before, inside and after the window. */
  lemma TrimIsWindow<T>(bars: seq<Bar<T>>, start: int, end: int, sPos: nat, ePos: nat)
    requires sPos == SearchSorted(Times(bars), start, Left) && ePos == SearchSorted(Times(bars), end, Right)
    ensures Sorted(bars) ==> InWindow(bars, start, end) == if sPos <= ePos then bars[sPos..ePos] else []
  {
    if Sorted(bars) {
      assert Ascending(Times(bars));
      assert Cuts(bars, start, end, sPos, ePos);
      if sPos <= ePos {
        WindowSlice(bars, start, end, sPos, ePos);
      } else {
        InWindowNone(bars, start, end);
      }
    }
  }

  /** `sPos` and `ePos` separate the bars before `start`, up to `end`, and after it. */
  predicate Cuts<T>(bars: seq<Bar<T>>, start: int, end: int, sPos: nat, ePos: nat) {
    && sPos <= |bars| && ePos <= |bars|
    && (forall j :: 0 <= j < sPos ==> bars[j].time < start)
    && (forall j :: sPos <= j < |bars| ==> start <= bars[j].time)
    && (forall j :: 0 <= j < ePos ==> bars[j].time <= end)
    && (forall j :: ePos <= j < |bars| ==> end < bars[j].time)
  }

  lemma WindowSlice<T>(bars: seq<Bar<T>>, start: int, end: int, sPos: nat, ePos: nat)
    requires Cuts(bars, start, end, sPos, ePos) && sPos <= ePos
    ensures InWindow(bars, start, end) == bars[sPos..ePos]
  {
    var a, b, c := bars[..sPos], bars[sPos..ePos], bars[ePos..];
    assert bars == a + (b + c);
    InWindowConcat(a, b + c, start, end);
    InWindowConcat(b, c, start, end);
    InWindowNone(a, start, end);
    InWindowAll(b, start, end);
    InWindowNone(c, start, end);
  }

  lemma {:induction false} InWindowConcat<T>(a: seq<Bar<T>>, b: seq<Bar<T>>, start: int, end: int)
    ensures InWindow(a + b, start, end) == InWindow(a, start, end) + InWindow(b, start, end)
    decreases |a|
  {
    if a != [] {
      assert (a + b)[1..] == a[1..] + b;
      InWindowConcat(a[1..], b, start, end);
    } else {
      assert a + b == b;
    }
  }

  lemma {:induction false} InWindowNone<T>(bars: seq<Bar<T>>, start: int, end: int)
    requires forall i :: 0 <= i < |bars| ==> !(start <= bars[i].time <= end)
    ensures InWindow(bars, start, end) == []
    decreases |bars|
  {
    if bars != [] {
      InWindowNone(bars[1..], start, end);
    }
  }

  lemma {:induction false} InWindowAll<T>(bars: seq<Bar<T>>, start: int, end: int)
    requires forall i :: 0 <= i < |bars| ==> start <= bars[i].time <= end
    ensures InWindow(bars, start, end) == bars
    decreases |bars|
  {
    if bars != [] {
      InWindowAll(bars[1..], start, end);
      assert bars == [bars[0]] + bars[1..];
    }
  }

  /** Both edges are inclusive: times 10, 20, 20, 30, 40 cut to [20, 30] keep 20, 20 and 30. */
  lemma TrimInclusiveEdges<T>(x: seq<T>)
    ensures Trim([Bar(10, x), Bar(20, x), Bar(20, x), Bar(30, x), Bar(40, x)], 20, 30)
      == [Bar(20, x), Bar(20, x), Bar(30, x)]
  {
    var bars := [Bar(10, x), Bar(20, x), Bar(20, x), Bar(30, x), Bar(40, x)];
    assert Sorted(bars);
    assert bars[1..][1..][1..][1..][1..] == [];
    assert InWindow(bars[1..][1..][1..][1..], 20, 30) == [];
    assert InWindow(bars[1..][1..][1..], 20, 30) == [Bar(30, x)];
    assert InWindow(bars[1..], 20, 30) == [Bar(20, x), Bar(20, x), Bar(30, x)];
  }
}
