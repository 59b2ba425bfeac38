/**
 * MongoDataSource._do_get_bars (lines 39-55 of mongo.py) as the loop it is,
 * and _get_bars_in_days (lines 57-81): the window bounds, the minute query,
 * the merge and the trim. The Mongo cursor is the sequence of documents the
 * store returns for a query, given as the function `store`.
 */
module BarFetcher {
  import opened Wrappers
  import opened PackedTime
  import opened FieldMerger
  import opened BarTable
  import opened WindowTrimmer
  import opened FrequencyRouter

  /**
   * The loop of lines 40-50 over the cursor `docs`, then the frame of lines
   * 51-55. `dct` is the ordered dict of lists and `l` the running total.
   */
  method DoGetBars<T>(docs: seq<Doc<T>>, fill: T, key: T -> int) returns (bars: Outcome<T>)
    ensures bars == Frame(Merged(docs, fill).columns, key)
  {
    var dct: seq<Column<T>> := [];
    var l := 0;
    var i := 0;
    while i < |docs|
      invariant 0 <= i <= |docs|
      invariant Merge(dct, l) == Merged(docs[..i], fill)
    {
      var doc := docs[i];
      l := l + doc.declared;
      dct := ExtendWithDoc(dct, doc);
      dct := PadAll(dct, l, fill);
      TakeOneMore(docs, i);
      MergedSnoc(docs[..i], doc, fill);
      i := i + 1;
    }
    assert docs[..i] == docs;
    bars := Frame(dct, key);
  }

  /** Lines 45-47: each list of the document's `_l` length is appended under its name. */
  method ExtendWithDoc<T>(dct: seq<Column<T>>, doc: Doc<T>) returns (r: seq<Column<T>>)
    ensures r == ExtendFields(dct, doc.fields, doc.declared, [])
  {
    r := dct;
    var j := 0;
    while j < |doc.fields|
      invariant 0 <= j <= |doc.fields|
      invariant r == ExtendFields(dct, doc.fields[..j], doc.declared, [])
    {
      var (name, values) := doc.fields[j];
      TakeOneMore(doc.fields, j);
      if values.List? && |values.items| == doc.declared {
        r := Append(r, name, [], values.items);
      }
      j := j + 1;
    }
    assert doc.fields[..j] == doc.fields;
  }

  lemma TakeOneMore<X>(s: seq<X>, i: nat)
    requires i < |s|
    ensures s[..i + 1] == s[..i] + [s[i]]
    ensures s[..i + 1][..i] == s[..i] && s[..i + 1][i] == s[i]
  {
  }

  /** Lines 48-50: every list whose length is not `l` is extended by `[fill] * l`. */
  method PadAll<T>(dct: seq<Column<T>>, l: int, fill: T) returns (r: seq<Column<T>>)
    ensures r == PadColumns(dct, l, fill)
  {
    r := dct;
    var k := 0;
    while k < |r|
      invariant 0 <= k <= |r| == |dct|
      invariant forall m :: 0 <= m < k ==> r[m] == PadColumns(dct, l, fill)[m]
      invariant forall m :: k <= m < |r| ==> r[m] == dct[m]
    {
      if |r[k].values| != l {
        r := r[k := Column(r[k].name, r[k].values + Repeat(fill, l))];
      }
      k := k + 1;
    }
  }

  /** Nothing to tabulate: no documents, or no document with a list of its `_l` length, gives None. */
  lemma NoDataWhenNothingQualifies<T>(docs: seq<Doc<T>>, fill: T, key: T -> int)
    requires AllQualifyingNames(docs) == {}
    ensures Frame(Merged(docs, fill).columns, key) == NoData
  {
    MergedColumnNames(docs, fill);
    NameSetEmpty(Merged(docs, fill).columns);
  }

  /**
   * When every document carries the same fields, `datetime` among them, each
   * a list of its `_l` length, the result is None exactly when the lengths
   * sum to zero, and otherwise a table of that many rows with one column per
   * field, sorted by time and holding the merged rows.
   */
  lemma WellFormedFrame<T>(docs: seq<Doc<T>>, names: set<string>, fill: T, key: T -> int)
    requires docs != [] && WellFormed(docs, names) && "datetime" in names
    ensures var m := Merged(docs, fill); var r := Frame(m.columns, key);
      && (r.NoData? <==> SumDeclared(docs) == 0)
      && (r.Table? <==> SumDeclared(docs) != 0)
      && (r.Table? ==>
            && |r.bars| == SumDeclared(docs)
            && NameSet(m.columns) == names
            && Sorted(r.bars)
            && multiset(r.bars) == multiset(ToBars(m.columns, Find(m.columns, "datetime"), key)))
  {
    var cols := Merged(docs, fill).columns;
    WellFormedShape(docs, names, fill);
    var r := Frame(cols, key);
    if r.Table? {
      assert |multiset(r.bars)| == |multiset(ToBars(cols, Find(cols, "datetime"), key))|;
    }
  }

  /** The shape of the merged dict in the aligned case: one column per field, all of the total length. */
  lemma WellFormedShape<T>(docs: seq<Doc<T>>, names: set<string>, fill: T)
    requires docs != [] && WellFormed(docs, names) && names != {}
    ensures var cols := Merged(docs, fill).columns;
      && cols != [] && NameSet(cols) == names && EqualLengths(cols) && Height(cols) == SumDeclared(docs)
  {
    var m := Merged(docs, fill);
    MergedWellFormed(docs, names, fill);
    NameSetEmpty(m.columns);
  }

  /**
   * The first finding's documents do not reach the caller as padded bars:
   * the over-padded `close` list is longer than `datetime`, so building the
   * frame raises. The intended merge gives a two-row table.
   */
  lemma OverPaddedFrameFails<T>(t1: T, t2: T, c1: T, fill: T, key: T -> int)
    ensures var docs := [Doc(1, [("datetime", List([t1])), ("close", List([c1]))]), Doc(1, [("datetime", List([t2]))])];
      && Frame(Merged(docs, fill).columns, key) == Failed(UnequalLengths)
      && Frame(AlignedMerged(docs, fill).columns, key).Table?
      && |Frame(AlignedMerged(docs, fill).columns, key).bars| == 2
  {
    MissingFieldOverPadded(t1, t2, c1, fill);
    PairFrame(Column("datetime", [t1, t2]), Column("close", [c1, fill, fill]), key);
    PairFrame(Column("datetime", [t1, t2]), Column("close", [c1, fill]), key);
  }

  /**
   * The silent variant of the first finding: when the second document
   * supplies no list, the over-padded lists keep equal lengths, so the frame
   * builds without error and holds three rows although the documents declare
   * two. The intended merge gives a two-row table.
   */
  lemma SilentOverPaddedFrame<T>(t1: T, c1: T, fill: T, key: T -> int)
    ensures var docs := [Doc(1, [("datetime", List([t1])), ("close", List([c1]))]), Doc(1, [])];
      && Merged(docs, fill).total == 2
      && Frame(Merged(docs, fill).columns, key).Table?
      && |Frame(Merged(docs, fill).columns, key).bars| == 3
      && Frame(AlignedMerged(docs, fill).columns, key).Table?
      && |Frame(AlignedMerged(docs, fill).columns, key).bars| == 2
  {
    SilentOverPadding(t1, c1, fill);
    PairFrame(Column("datetime", [t1, fill, fill]), Column("close", [c1, fill, fill]), key);
    PairFrame(Column("datetime", [t1, fill]), Column("close", [c1, fill]), key);
  }

  /** The frame of a two-column dict whose first column is `datetime`. */
  lemma PairFrame<T>(x: Column<T>, y: Column<T>, key: T -> int)
    requires x.name == "datetime" && x.name != y.name && |x.values| > 0
    ensures |x.values| != |y.values| ==> Frame([x, y], key) == Failed(UnequalLengths)
    ensures |x.values| == |y.values| ==> Frame([x, y], key).Table? && |Frame([x, y], key).bars| == |x.values|
  {
    var cols := [x, y];
    if |x.values| == |y.values| {
      assert EqualLengths(cols) && Size(cols) > 0;
      assert "datetime" in NameSet(cols);
      var r := Frame(cols, key);
      assert |multiset(r.bars)| == |multiset(ToBars(cols, Find(cols, "datetime"), key))|;
    } else {
      assert !EqualLengths(cols) by {
        assert |cols[1].values| != |cols[0].values|;
      }
    }
  }

  /** The intended merge always builds a frame: its lists never differ in length. */
  lemma AlignedFrameBuilds<T>(docs: seq<Doc<T>>, fill: T, key: T -> int)
    requires Counted(docs)
    ensures Frame(AlignedMerged(docs, fill).columns, key) != Failed(UnequalLengths)
  {
    AlignedMergedSpec(docs, fill);
  }

  /** One entry of `params`: a trading date with optional `start_time` / `end_time` (HHMMSS). */
  datatype Param = Param(tradeDate: Date, startTime: Option<int>, endTime: Option<int>)

  /** The minute query of lines 64-72: code, collection, the datetime window and bar type, in db "quantaxis". */
  datatype MinuteQuery = MinuteQuery(db: string, collection: string, code: string, start: int, end: int, barType: string)

  datatype FetchError =
    | EmptyParams                  // params[0] on an empty list (IndexError)
    | UnknownKind(error: KeyError) // INSTRUMENT_TYPE_MAP lookup
    | FrameFailed(reason: FrameError)

  /**
   * Lines 58-63: the window opens at the first date plus its start time
   * (default 0, midnight) and closes at the last date plus its end time
   * (default 150000, 15:00:00).
   */
  function WindowBounds(params: seq<Param>): (r: Result<(int, int), FetchError>)
    ensures r.Err? <==> params == []
    ensures r.Err? ==> r.error == EmptyParams
    ensures r.Ok? ==>
      var first := params[0]; var last := params[|params| - 1];
      && r.value.0 == DateToInt(first.tradeDate) + (if first.startTime.Some? then first.startTime.value else 0)
      && r.value.1 == DateToInt(last.tradeDate) + (if last.endTime.Some? then last.endTime.value else 150000)
  {
    if params == [] then Err(EmptyParams)
    else
      var first := params[0];
      var last := params[|params| - 1];
      Ok((Instant(first.tradeDate, first.startTime.GetOr(0)), Instant(last.tradeDate, last.endTime.GetOr(150000))))
  }

  /**
   * With valid dates and times of day, every instant of a day strictly
   * between the first and the last trading date falls in the window, and
   * so does every instant of the first (last) day from its start time on
   * (up to its end time).
   */
  lemma WindowCovers(params: seq<Param>, d: Date, t: int)
    requires params != [] && ValidDate(d) && 0 <= t < DayScale
    requires var first := params[0]; var last := params[|params| - 1];
      && ValidDate(first.tradeDate) && ValidDate(last.tradeDate)
      && 0 <= first.startTime.GetOr(0) < DayScale && 0 <= last.endTime.GetOr(150000) < DayScale
    requires var first := params[0]; var last := params[|params| - 1];
      && (DateBefore(first.tradeDate, d) || (d == first.tradeDate && first.startTime.GetOr(0) <= t))
      && (DateBefore(d, last.tradeDate) || (d == last.tradeDate && t <= last.endTime.GetOr(150000)))
    ensures var w := WindowBounds(params).value; w.0 <= Instant(d, t) <= w.1
  {
    var first := params[0];
    var last := params[|params| - 1];
    InstantOrder(first.tradeDate, first.startTime.GetOr(0), d, t);
    InstantOrder(d, t, last.tradeDate, last.endTime.GetOr(150000));
  }

  /**
   * _get_bars_in_days: bounds from `params`, the query for the instrument's
   * minute collection, the merged and sorted bars, then the trim. The
   * result is an error raised on the way, or the bars inside the window in
   * time order; no bars at all when the store has nothing.
   */
  method GetBarsInDays<T>(instrument: Instrument, params: seq<Param>,
                          store: MinuteQuery -> seq<Doc<T>>, fill: T, key: T -> int)
    returns (r: Result<seq<Bar<T>>, FetchError>)
    ensures params == [] ==> r == Err(EmptyParams)
    ensures params != [] && instrument.enumType !in {CS, INDX} ==> r == Err(UnknownKind(KeyError(instrument.enumType)))
    ensures params != [] && instrument.enumType in {CS, INDX} ==>
      var (s, e) := WindowBounds(params).value;
      var q := MinuteQuery("quantaxis", CollectionFor(instrument, "_min").value, CodeOf(instrument.orderBookId), s, e, "1min");
      var f := Frame(Merged(store(q), fill).columns, key);
      && (f.Failed? ==> r == Err(FrameFailed(f.error)))
      && (f.NoData? ==> r == Ok([]))
      && (f.Table? ==> r == Ok(InWindow(f.bars, s, e)))
    ensures r.Ok? ==> Sorted(r.value) && forall i :: 0 <= i < |r.value| ==>
      WindowBounds(params).value.0 <= r.value[i].time <= WindowBounds(params).value.1
  {
    var bounds := WindowBounds(params);
    if bounds.Err? {
      return Err(bounds.error);
    }
    var (s, e) := bounds.value;
    var code := CodeOf(instrument.orderBookId);
    var collection := CollectionFor(instrument, "_min");
    if collection.Err? {
      return Err(UnknownKind(collection.error));
    }
    var q := MinuteQuery("quantaxis", collection.value, code, s, e, "1min");
    var frame := DoGetBars(store(q), fill, key);
    var table: seq<Bar<T>>;
    match frame {
      case Failed(err) => return Err(FrameFailed(err));
      case NoData => table := [];
      case Table(_, rows) => table := rows;
    }
    r := Ok(Trim(table, s, e));
  }
}
