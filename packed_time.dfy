/**
 * Calendar dates and the packed integer instants the data source uses.
 * A date packs as YYYYMMDD * 10^6 and a time of day as HHMMSS, so an
 * instant is YYYYMMDDHHMMSS (the convert_date_to_int / convert_dt_to_int
 * format of the rqalpha utilities).
 */
module PackedTime {
  import opened Wrappers

  datatype Date = Date(year: int, month: int, day: int)
  datatype DateTime = DateTime(date: Date, hour: int, minute: int, second: int)

  const DayScale := 1000000

  predicate IsLeapYear(y: int) {
    (y % 4 == 0 && y % 100 != 0) || y % 400 == 0
  }

  function DaysInMonth(y: int, m: int): (n: int)
    requires 1 <= m <= 12
    ensures 28 <= n <= 31
    ensures n == 29 <==> m == 2 && IsLeapYear(y)
  {
    if m == 2 then (if IsLeapYear(y) then 29 else 28)
    else if m == 4 || m == 6 || m == 9 || m == 11 then 30
    else 31
  }

  /** The dates Python's `date` can represent. */
  predicate ValidDate(d: Date) {
    1 <= d.year <= 9999 && 1 <= d.month <= 12 && 1 <= d.day <= DaysInMonth(d.year, d.month)
  }

  predicate ValidDateTime(t: DateTime) {
    ValidDate(t.date) && 0 <= t.hour < 24 && 0 <= t.minute < 60 && 0 <= t.second < 60
  }

  /** Strict calendar order. */
  predicate DateBefore(a: Date, b: Date) {
    a.year < b.year
    || (a.year == b.year && a.month < b.month)
    || (a.year == b.year && a.month == b.month && a.day < b.day)
  }

  /**
   * convert_date_to_int: the date at midnight as a packed instant. It has no
   * HHMMSS part, and a valid date always packs above the 10^8 threshold at
   * which convert_int_to_date reads a value as an instant.
   */
  function DateToInt(d: Date): (r: int)
    ensures r % DayScale == 0
    ensures ValidDate(d) ==> r > 100000000
  {
    var ymd := d.year * 10000 + d.month * 100 + d.day;
    assert ymd * DayScale == d.year * 10000000000 + d.month * 100000000 + d.day * DayScale;
    ymd * DayScale
  }

  /** A date plus an HHMMSS offset, as the window bounds are formed. */
  function Instant(d: Date, hhmmss: int): int {
    DateToInt(d) + hhmmss
  }

  /**
   * convert_dt_to_int: a valid datetime packs to an instant inside its own
   * day, and convert_int_to_date gives its date back.
   */
  function DateTimeToInt(t: DateTime): (r: int)
    ensures ValidDateTime(t) ==> DateToInt(t.date) <= r < DateToInt(t.date) + DayScale
    ensures ValidDateTime(t) ==> IntToDate(r) == t.date
  {
    var hhmmss := t.hour * 10000 + t.minute * 100 + t.second;
    assert ValidDateTime(t) ==> IntToDate(Instant(t.date, hhmmss)) == t.date by {
      if ValidDateTime(t) {
        IntToDateInstant(t.date, hhmmss);
      }
    }
    Instant(t.date, hhmmss)
  }

  /**
   * convert_int_to_date(...).date(): a value above 100000000 is taken as a
   * packed instant and loses its HHMMSS, giving the day the instant lies in;
   * the rest splits as YYYYMMDD.
   * (Python's `//` and `divmod` floor; for these positive divisors that is
   * Dafny's `/` and `%`.)
   */
  function IntToDate(p: int): (r: Date)
    ensures p > 100000000 ==> DateToInt(r) <= p < DateToInt(r) + DayScale
    ensures p <= 100000000 ==> DateToInt(r) == p * DayScale
  {
    var ymd := if p > 100000000 then p / DayScale else p;
    var md := ymd % 10000;
    SplitPacked(ymd);
    assert p > 100000000 ==> ymd * DayScale <= p < ymd * DayScale + DayScale;
    Date(ymd / 10000, md / 100, md % 100)
  }

  /** The three `divmod` parts of YYYYMMDD pack back to it. */
  lemma SplitPacked(ymd: int)
    ensures DateToInt(Date(ymd / 10000, (ymd % 10000) / 100, (ymd % 10000) % 100)) == ymd * DayScale
  {
    var md := ymd % 10000;
    assert ymd == (ymd / 10000) * 10000 + md;
    assert md == (md / 100) * 100 + md % 100;
  }

  /** Unpacking a packed instant gives back its calendar date. */
  lemma {:induction false} IntToDateInstant(d: Date, hhmmss: int)
    requires ValidDate(d) && 0 <= hhmmss < DayScale
    ensures IntToDate(Instant(d, hhmmss)) == d
  {
    var ymd := d.year * 10000 + d.month * 100 + d.day;
    assert Instant(d, hhmmss) == ymd * DayScale + hhmmss;
    assert ymd * DayScale + hhmmss > 100000000;
    assert (ymd * DayScale + hhmmss) / DayScale == ymd;
    var md := d.month * 100 + d.day;
    assert ymd == d.year * 10000 + md && 0 <= md < 10000;
    assert ymd / 10000 == d.year && ymd % 10000 == md;
    assert md / 100 == d.month && md % 100 == d.day;
  }

  /** Instants of earlier dates come first, whatever the time of day. */
  lemma {:induction false} InstantOrder(a: Date, s: int, b: Date, e: int)
    requires ValidDate(a) && ValidDate(b) && 0 <= s < DayScale && 0 <= e < DayScale
    ensures DateBefore(a, b) ==> Instant(a, s) < Instant(b, e)
    ensures a == b ==> (Instant(a, s) <= Instant(b, e) <==> s <= e)
  {
    if DateBefore(a, b) {
      var ya := a.year * 10000 + a.month * 100 + a.day;
      var yb := b.year * 10000 + b.month * 100 + b.day;
      assert ya < yb;
      assert DateToInt(a) == ya * DayScale && DateToInt(b) == yb * DayScale;
    }
  }

  /** The day after `d`, None past 9999-12-31 (Python's date.max). */
  function NextDay(d: Date): (r: Option<Date>)
    requires ValidDate(d)
    ensures r.Some? ==> ValidDate(r.value) && DateBefore(d, r.value)
    ensures r.None? <==> d == Date(9999, 12, 31)
  {
    if d.day < DaysInMonth(d.year, d.month) then Some(Date(d.year, d.month, d.day + 1))
    else if d.month < 12 then Some(Date(d.year, d.month + 1, 1))
    else if d.year < 9999 then Some(Date(d.year + 1, 1, 1))
    else None
  }

  /** `d - relativedelta(days=1)`; None for date.min, where Python overflows. */
  function PrevDay(d: Date): (r: Option<Date>)
    requires ValidDate(d)
    ensures r.Some? ==> ValidDate(r.value) && DateBefore(r.value, d)
    ensures r.None? <==> d == Date(1, 1, 1)
  {
    if d.day > 1 then Some(Date(d.year, d.month, d.day - 1))
    else if d.month > 1 then Some(Date(d.year, d.month - 1, DaysInMonth(d.year, d.month - 1)))
    else if d.year > 1 then Some(Date(d.year - 1, 12, 31))
    else None
  }

  /** PrevDay and NextDay undo each other. */
  lemma PrevNextRoundTrip(d: Date)
    requires ValidDate(d)
    ensures PrevDay(d).Some? ==> NextDay(PrevDay(d).value) == Some(d)
    ensures NextDay(d).Some? ==> PrevDay(NextDay(d).value) == Some(d)
  {
  }
}
