/**
 * How MongoDataSource names what it reads: the instrument code taken from
 * the order book id, the stock/index collections chosen through
 * INSTRUMENT_TYPE_MAP (lines 20-23 of mongo.py), and the routing of
 * `raw_history_bars` (lines 83-100) between the minute path and a read of
 * the daily collection.
 */
module FrequencyRouter {
  import opened Wrappers
  import opened PackedTime
  import opened BarTable

  /**
   * `s.endswith(suffix)`: `s` is some string followed by `suffix`; for a
   * one-character suffix, the last character of `s` is that character.
   */
  predicate EndsWith(s: string, suffix: string): (b: bool)
    ensures b <==> exists head :: head + suffix == s
    ensures |suffix| == 1 ==> (b <==> s != [] && s[|s| - 1] == suffix[0])
  {
    var b := |suffix| <= |s| && s[|s| - |suffix|..] == suffix;
    assert b ==> s[..|s| - |suffix|] + suffix == s;
    b
  }

  /**
   * `order_book_id.split(".")[0]`: the id up to its first ".", or the whole
   * id when it has none.
   */
  function CodeOf(id: string): (code: string)
    ensures code <= id
    ensures '.' !in code
    ensures |code| < |id| ==> id[|code|] == '.'
    decreases |id|
  {
    if id == [] || id[0] == '.' then []
    else
      var rest := CodeOf(id[1..]);
      assert id == [id[0]] + id[1..];
      [id[0]] + rest
  }

  /** A code followed by an exchange suffix gives back the code ("000001.XSHE" gives "000001"). */
  lemma {:induction false} CodeOfSuffixed(code: string, suffix: string)
    requires '.' !in code
    ensures CodeOf(code + "." + suffix) == code
    ensures CodeOf(code) == code
    decreases |code|
  {
    if code != [] {
      assert (code + "." + suffix)[1..] == code[1..] + "." + suffix;
      CodeOfSuffixed(code[1..], suffix);
      assert code == [code[0]] + code[1..];
    } else {
      assert code + "." + suffix == "." + suffix;
    }
  }

  /** Taking the code twice changes nothing. */
  lemma CodeOfIdempotent(id: string)
    ensures CodeOf(CodeOf(id)) == CodeOf(id)
  {
    CodeOfSuffixed(CodeOf(id), "");
  }

  /** The instrument kinds of rqalpha's INSTRUMENT_TYPE that matter here; every other kind is `OtherKind`. */
  datatype InstrumentType = CS | INDX | OtherKind(name: string)

  datatype Instrument = Instrument(orderBookId: string, enumType: InstrumentType)

  /** INSTRUMENT_TYPE_MAP. */
  const InstrumentTypeMap: map<InstrumentType, string> := map[CS := "stock", INDX := "index"]

  /** The KeyError the map raises for a kind it does not hold. */
  datatype KeyError = KeyError(kind: InstrumentType)

  /**
   * The collection an instrument is read from: "stock" + suffix when the
   * map gives "stock", "index" + suffix for any other mapped kind, a
   * KeyError for an unmapped kind.
   */
  function CollectionFor(instrument: Instrument, suffix: string): (r: Result<string, KeyError>)
    ensures r.Err? <==> instrument.enumType !in {CS, INDX}
    ensures r.Err? ==> r.error == KeyError(instrument.enumType)
    ensures instrument.enumType == CS ==> r == Ok("stock" + suffix)
    ensures instrument.enumType == INDX ==> r == Ok("index" + suffix)
  {
    if instrument.enumType !in InstrumentTypeMap then Err(KeyError(instrument.enumType))
    else if InstrumentTypeMap[instrument.enumType] == "stock" then Ok("stock" + suffix)
    else Ok("index" + suffix)
  }

  /** The arguments of the `MongoHandler.read` call on line 96. */
  datatype DayRead = DayRead(
    collection: string, db: string, code: string, index: string,
    start: Option<DateTime>, end: Option<DateTime>, length: Option<int>,
    sort: seq<(string, int)>)

  /** Where `raw_history_bars` sends a request. */
  datatype Route =
    | MinutePath(instrument: Instrument, frequency: string, start: Option<DateTime>, end: Option<DateTime>, length: Option<int>)
    | DayPath(request: DayRead)

  /**
   * Lines 85-96: a frequency ending in "m" is handed, with the instrument
   * and every other argument unchanged, to the minute path; any other
   * frequency reads the instrument's daily collection in the "quantaxis"
   * database by code, indexed and sorted ascending by "date", with the
   * window and length passed through.
   */
  function RouteHistory(instrument: Instrument, frequency: string,
                        start: Option<DateTime>, end: Option<DateTime>, length: Option<int>): (r: Result<Route, KeyError>)
    ensures EndsWith(frequency, "m") ==> r == Ok(MinutePath(instrument, frequency, start, end, length))
    ensures !EndsWith(frequency, "m") ==>
      && (r.Err? <==> instrument.enumType !in {CS, INDX})
      && (r.Ok? ==> (&& r.value.DayPath?
                     && r.value.request == DayRead(CollectionFor(instrument, "_day").value, "quantaxis",
                          CodeOf(instrument.orderBookId), "date", start, end, length, [("date", 1)])))
  {
    if EndsWith(frequency, "m") then Ok(MinutePath(instrument, frequency, start, end, length))
    else
      var code := CodeOf(instrument.orderBookId);
      match CollectionFor(instrument, "_day")
      case Err(e) => Err(e)
      case Ok(collection) =>
        Ok(DayPath(DayRead(collection, "quantaxis", code, "date", start, end, length, [("date", 1)])))
  }

  /** What `raw_history_bars` returns: the minute path's answer, which is not modelled, or bars. */
  datatype History<T> = Delegated(route: Route) | Bars(bars: seq<Bar<T>>)

  /**
   * `raw_history_bars`, with the store's answer to a daily read given as
   * `read`. An empty answer and `MongoConverter.empty()` are both no bars.
   */
  function RawHistoryBars<T>(instrument: Instrument, frequency: string,
                             start: Option<DateTime>, end: Option<DateTime>, length: Option<int>,
                             read: DayRead -> seq<Bar<T>>): (r: Result<History<T>, KeyError>)
    ensures EndsWith(frequency, "m") ==> r == Ok(Delegated(MinutePath(instrument, frequency, start, end, length)))
    ensures !EndsWith(frequency, "m") && instrument.enumType !in {CS, INDX} ==> r == Err(KeyError(instrument.enumType))
    ensures !EndsWith(frequency, "m") && instrument.enumType in {CS, INDX} ==>
      r == Ok(Bars(read(RouteHistory(instrument, frequency, start, end, length).value.request)))
  {
    match RouteHistory(instrument, frequency, start, end, length)
    case Err(e) => Err(e)
    case Ok(route) =>
      if route.MinutePath? then Ok(Delegated(route)) else Ok(Bars(read(route.request)))
  }

  /** The collections the data source reads for each kind: stock_min/stock_day and index_min/index_day. */
  lemma CollectionNames(instrument: Instrument)
    ensures instrument.enumType == CS ==>
      CollectionFor(instrument, "_min") == Ok("stock_min") && CollectionFor(instrument, "_day") == Ok("stock_day")
    ensures instrument.enumType == INDX ==>
      CollectionFor(instrument, "_min") == Ok("index_min") && CollectionFor(instrument, "_day") == Ok("index_day")
  {
    assert "stock" + "_min" == "stock_min" && "stock" + "_day" == "stock_day";
    assert "index" + "_min" == "index_min" && "index" + "_day" == "index_day";
  }
}
