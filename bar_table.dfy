/**
 * The table `_do_get_bars` builds from the merged dict (lines 51-55 of
 * mongo.py): `pd.DataFrame(dct)`, the `df.size` test and
 * `df.sort_values("datetime")`, followed by the conversion to bars whose
 * `datetime` is a packed integer instant.
 *
 * A row becomes a Bar: its packed time (`key` applied to the row's
 * `datetime` value) and its values in column order.
 */
module BarTable {
  import opened FieldMerger

  /** One row of the table. */
  datatype Bar<T> = Bar(time: int, record: seq<T>)

  /** What pandas raises while building or sorting the frame. */
  datatype FrameError =
    | UnequalLengths     // DataFrame(dct): "arrays must all be same length" (ValueError)
    | NoDatetimeColumn   // sort_values("datetime") on a frame without it (KeyError)

  /** The value of `_do_get_bars`: None, a sorted table, or the exception pandas raises. */
  datatype Outcome<T> = NoData | Table(names: seq<string>, bars: seq<Bar<T>>) | Failed(error: FrameError)

  predicate EqualLengths<T>(cols: seq<Column<T>>) {
    forall i :: 0 <= i < |cols| ==> |cols[i].values| == |cols[0].values|
  }

  /** The number of rows: the length of the columns (none when there are no columns). */
  function Height<T>(cols: seq<Column<T>>): nat {
    if cols == [] then 0 else |cols[0].values|
  }

  /** `df.size`: rows times columns, so zero exactly when there are no columns or no rows. */
  function Size<T>(cols: seq<Column<T>>): (n: nat)
    ensures n == 0 <==> cols == [] || Height(cols) == 0
  {
    |cols| * Height(cols)
  }

  predicate Sorted<T>(bars: seq<Bar<T>>) {
    forall i, j :: 0 <= i < j < |bars| ==> bars[i].time <= bars[j].time
  }

  /** The rows of a frame of equal-length columns, in their stored order, timed by column `dt`. */
  function ToBars<T>(cols: seq<Column<T>>, dt: nat, key: T -> int): (r: seq<Bar<T>>)
    requires EqualLengths(cols) && dt < |cols|
    ensures |r| == Height(cols)
    ensures forall i :: 0 <= i < |r| ==>
      && r[i].time == key(cols[dt].values[i])
      && |r[i].record| == |cols|
      && forall j :: 0 <= j < |cols| ==> r[i].record[j] == cols[j].values[i]
  {
    seq(Height(cols), i requires 0 <= i < Height(cols) =>
      Bar(key(cols[dt].values[i]), seq(|cols|, j requires 0 <= j < |cols| => cols[j].values[i])))
  }

  lemma SortedCons<T>(b: Bar<T>, s: seq<Bar<T>>)
    ensures Sorted(s) && (s != [] ==> b.time <= s[0].time) ==> Sorted([b] + s)
  {
    var r := [b] + s;
    if Sorted(s) && (s != [] ==> b.time <= s[0].time) {
      forall i, j | 0 <= i < j < |r| ensures r[i].time <= r[j].time {
        if i == 0 && j > 1 {
          assert r[1] == s[0] && r[j] == s[j - 1];
        }
      }
    }
  }

  lemma HeadTail<X>(s: seq<X>)
    requires s != []
    ensures s == [s[0]] + s[1..]
  {
  }

  lemma SortedTail<T>(s: seq<Bar<T>>)
    requires s != []
    ensures Sorted(s) ==> Sorted(s[1..]) && (|s| > 1 ==> s[0].time <= s[1].time)
  {
  }

  /** Inserting a bar into a sorted run of bars. */
  function Insert<T>(b: Bar<T>, s: seq<Bar<T>>): (r: seq<Bar<T>>)
    ensures |r| == |s| + 1
    ensures multiset(r) == multiset(s) + multiset{b}
    ensures r[0] == b || (s != [] && r[0] == s[0])
    ensures Sorted(s) ==> Sorted(r)
    decreases |s|
  {
    if s == [] then [b]
    else if b.time <= s[0].time then
      SortedCons(b, s);
      [b] + s
    else
      var rest := Insert(b, s[1..]);
      HeadTail(s);
      SortedTail(s);
      SortedCons(s[0], rest);
      [s[0]] + rest
  }

  /**
   * `sort_values` by time: the result is ascending and holds the same bars.
   * Nothing is promised about the order of bars with equal times (pandas'
   * default sort is not stable).
   */
  function SortByTime<T>(bars: seq<Bar<T>>): (r: seq<Bar<T>>)
    ensures Sorted(r)
    ensures multiset(r) == multiset(bars)
    decreases |bars|
  {
    if bars == [] then []
    else
      HeadTail(bars);
      Insert(bars[0], SortByTime(bars[1..]))
  }

  /**
   * `pd.DataFrame(dct)`, then `df.sort_values("datetime") if df.size else None`.
   * pandas checks the column lengths while building the frame, so unequal
   * lists fail before the size test, and the missing column only matters
   * for a non-empty frame.
   */
  function Frame<T>(cols: seq<Column<T>>, key: T -> int): (r: Outcome<T>)
    ensures r == Failed(UnequalLengths) <==> !EqualLengths(cols)
    ensures r == NoData <==> EqualLengths(cols) && Size(cols) == 0
    ensures r == Failed(NoDatetimeColumn) <==> EqualLengths(cols) && Size(cols) > 0 && "datetime" !in NameSet(cols)
    ensures r.Table? ==>
      && r.names == Names(cols)
      && "datetime" in NameSet(cols)
      && Sorted(r.bars)
      && multiset(r.bars) == multiset(ToBars(cols, Find(cols, "datetime"), key))
  {
    if !EqualLengths(cols) then Failed(UnequalLengths)
    else if Size(cols) == 0 then NoData
    else
      var dt := Find(cols, "datetime");
      if dt == |cols| then Failed(NoDatetimeColumn)
      else Table(Names(cols), SortByTime(ToBars(cols, dt, key)))
  }
}
