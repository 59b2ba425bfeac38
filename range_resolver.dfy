/**
 * The data range MongoDataSource reports (lines 106-128 of mongo.py): a
 * fixed range for daily and hourly frequencies, otherwise the first and
 * last date of the index 000001 in the store, memoized per frequency.
 */
module RangeResolver {
  import opened Wrappers
  import opened PackedTime
  import opened FrequencyRouter

  /** The collection, sort key and filter of the two `find` calls on lines 114-117, in db "quantaxis". */
  datatype RangeQuery = RangeQuery(db: string, collection: string, key: string, code: string, barType: Option<string>)

  datatype RangeError =
    | NoRangeFound   // no document matched: IndexError turned into RuntimeError (line 121)
    | DateOverflow   // date.min - 1 day (OverflowError)

  /** Lines 109-112: daily frequencies look at index_day by "date", all others at the 1min bars of index_min by "datetime". */
  function RangeQueryFor(frequency: string): (q: RangeQuery)
    ensures q.db == "quantaxis" && q.code == "000001"
    ensures EndsWith(frequency, "d") <==> q.collection == "index_day"
    ensures EndsWith(frequency, "d") ==> q.key == "date" && q.barType == None
    ensures !EndsWith(frequency, "d") ==> q.collection == "index_min" && q.key == "datetime" && q.barType == Some("1min")
  {
    if EndsWith(frequency, "d") then RangeQuery("quantaxis", "index_day", "date", "000001", None)
    else RangeQuery("quantaxis", "index_min", "datetime", "000001", Some("1min"))
  }

  /**
   * `_get_date_range`, with the store's answer to a query given as `store`:
   * the sort key's value in the earliest and in the latest matching
   * document, or None when nothing matches. Both values go through the
   * packed integer form and back to a date.
   */
  function GetDateRange(frequency: string, store: RangeQuery -> Option<(DateTime, DateTime)>)
    : (r: Result<(Date, Date), RangeError>)
    ensures r == Err(NoRangeFound) <==> store(RangeQueryFor(frequency)) == None
    ensures r.Ok? <==> store(RangeQueryFor(frequency)).Some?
    ensures store(RangeQueryFor(frequency)).Some? ==> var (first, last) := store(RangeQueryFor(frequency)).value;
      ValidDateTime(first) && ValidDateTime(last) ==> r == Ok((first.date, last.date))
  {
    match store(RangeQueryFor(frequency))
    case None => Err(NoRangeFound)
    case Some((first, last)) =>
      Ok((IntToDate(DateTimeToInt(first)), IntToDate(DateTimeToInt(last))))
  }

  /** The first date of the fixed range. */
  const FixedStart := Date(2012, 6, 1)

  /**
   * `available_data_range` without its cache: frequencies ending in "d" or
   * "h" get 2012-06-01 up to the day before `today`; any other frequency
   * gets the store's range.
   */
  function AvailableRange(frequency: string, today: Date, store: RangeQuery -> Option<(DateTime, DateTime)>)
    : (r: Result<(Date, Date), RangeError>)
    requires ValidDate(today)
    ensures EndsWith(frequency, "d") || EndsWith(frequency, "h") ==>
      && (r.Err? <==> today == Date(1, 1, 1))
      && (r.Err? ==> r.error == DateOverflow)
      && (r.Ok? ==> r.value.0 == FixedStart && ValidDate(r.value.1) && NextDay(r.value.1) == Some(today))
    ensures !(EndsWith(frequency, "d") || EndsWith(frequency, "h")) ==> r == GetDateRange(frequency, store)
  {
    if EndsWith(frequency, "d") || EndsWith(frequency, "h") then
      match PrevDay(today)
      case None => Err(DateOverflow)
      case Some(yesterday) =>
        PrevNextRoundTrip(today);
        Ok((FixedStart, yesterday))
    else GetDateRange(frequency, store)
  }

  /** The fixed range does not look at the store: any two stores give the same answer. */
  lemma FixedRangeIgnoresStore(frequency: string, today: Date,
                               s1: RangeQuery -> Option<(DateTime, DateTime)>, s2: RangeQuery -> Option<(DateTime, DateTime)>)
    requires ValidDate(today) && (EndsWith(frequency, "d") || EndsWith(frequency, "h"))
    ensures AvailableRange(frequency, today, s1) == AvailableRange(frequency, today, s2)
  {
  }

  /**
   * `@lru_cache` on `available_data_range`: answers are kept per frequency
   * (an exception is not kept, so a failed lookup is asked again next time).
   */
  class RangeCache {
    var memo: map<string, (Date, Date)>

    constructor()
      ensures memo == map[]
    {
      memo := map[];
    }

    /**
     * A frequency seen before gets its kept answer, whatever `today` and the
     * store say now; otherwise the range is worked out and, when it is not
     * an error, kept.
     */
    method AvailableDataRange(frequency: string, today: Date, store: RangeQuery -> Option<(DateTime, DateTime)>)
      returns (r: Result<(Date, Date), RangeError>)
      requires ValidDate(today)
      modifies this
      ensures frequency in old(memo) ==> r == Ok(old(memo)[frequency]) && memo == old(memo)
      ensures frequency !in old(memo) ==>
        && r == AvailableRange(frequency, today, store)
        && memo == if r.Ok? then old(memo)[frequency := r.value] else old(memo)
      ensures r.Ok? ==> frequency in memo && memo[frequency] == r.value
    {
      if frequency in memo {
        return Ok(memo[frequency]);
      }
      r := AvailableRange(frequency, today, store);
      if r.Ok? {
        memo := memo[frequency := r.value];
      }
    }
  }
}
