# MongoDataSource bar assembly, in Dafny

This project models the core of `MongoDataSource` in
`rqalpha_mod_fxdayu_source/data_source/mongo.py`, the data source that reads
market bars from a "quantaxis" MongoDB store for the rqalpha backtester. The
model covers:

- **The shard merger** `_do_get_bars`. Shard documents each hold a declared
  length `_l` and per-bar lists. They are stitched into one dict of lists with
  a running total `l`, and each list is padded with `fill` after every
  document. The dict is then turned into a pandas frame: `None` when it is
  empty, otherwise sorted by `datetime`.
- **The minute window** `_get_bars_in_days`. The bounds are the first trading
  date plus `start_time` (default 0) and the last trading date plus `end_time`
  (default 150000). The minute query goes to `stock_min` or `index_min`. The
  merged bars are then trimmed with `searchsorted` left/right.
- **Routing**. `raw_history_bars` sends frequencies ending in "m" to the
  minute path and everything else to a read of `stock_day` or `index_day`.
  The instrument code is the order book id up to its first ".".
  `INSTRUMENT_TYPE_MAP` maps CS to stock and INDX to index; any other kind
  raises `KeyError`.
- **The available-range policy**. Daily and hourly frequencies get
  2012-06-01 up to yesterday. Other frequencies get the first and last date
  of index 000001 in the store, and `RuntimeError` when there is none. The
  answer is memoized per frequency.

Modules:

| file | module | what it holds |
|---|---|---|
| `wrappers.dfy` | `Wrappers` | Option, Result |
| `packed_time.dfy` | `PackedTime` | Dates, YYYYMMDDHHMMSS packed instants, previous and next day |
| `field_merger.dfy` | `FieldMerger` | The merge loop as a fold (`Merged`), exactly as written; the intended merge (`AlignedMerged`); the counter-examples |
| `bar_table.dfy` | `BarTable` | `pd.DataFrame(dct)`, `df.size`, `sort_values("datetime")`, rows as bars |
| `window_trimmer.dfy` | `WindowTrimmer` | `np.searchsorted` as bisection, the slice, and the reference window filter |
| `frequency_router.dfy` | `FrequencyRouter` | `endswith`, `split(".")[0]`, `INSTRUMENT_TYPE_MAP`, `raw_history_bars` routing |
| `bar_fetcher.dfy` | `BarFetcher` | `_do_get_bars` as nested loops, window bounds, `_get_bars_in_days` |
| `range_resolver.dfy` | `RangeResolver` | `_get_date_range`, `available_data_range`, the memo as a class with a map |

Modelling choices:

- **The dict.** A Python dict keeps insertion order, so the dict of lists is a
  sequence of named columns with distinct names. A document is its `_l`
  (`declared`) plus its fields in order.
- **Values.** A field is either a list or a scalar. `NaN` is a generic fill
  value `T`.
- **The store.** The Mongo cursor and the `MongoHandler` / pymongo reads are
  function parameters (`store`, `read`) that give the documents or rows for a
  query. The model states exactly which query each operation issues.
- **Bars.** `MongoConverter.df2np` is modelled as rows carrying a packed
  integer time, computed by a key function `key: T -> int` from the row's
  `datetime` value.
- **Sorting.** `sort_values` uses pandas' default sort, which is not stable,
  so no order among equal times is promised. The sort is specified as
  ascending in time plus a permutation (multiset equality).
- **Malformed shards.** The padding follows the code: line 50 appends
  `[fill] * l` copies, not `l - len` (see Findings). An incomplete shard
  therefore either makes `pd.DataFrame` raise ValueError, when the lists end
  up with different lengths, or builds a frame with more rows than the
  documents declare, when every list is over-padded by the same amount.
- **Stale ranges.** The cache key is the frequency alone. Once a daily or
  hourly range is cached, it keeps the "yesterday" of the day it was
  computed: `RangeCache.AvailableDataRange` returns the kept value whatever
  `today` is.

## Model

| member | source | states |
|---|---|---|
| PackedTime.DateToInt | rqalpha_mod_fxdayu_source/data_source/mongo.py:62-63 | convert_date_to_int packs a date at midnight: the packed value has no HHMMSS part, and a valid date always packs above the 10^8 threshold of convert_int_to_date |
| PackedTime.DateTimeToInt | rqalpha_mod_fxdayu_source/data_source/mongo.py:118-119 | convert_dt_to_int puts a valid datetime inside its own day (between the packed date and the next 10^6), and convert_int_to_date gives its date back |
| PackedTime.IntToDate | rqalpha_mod_fxdayu_source/data_source/mongo.py:122 | convert_int_to_date(...).date(): a value above 10^8 gives the date whose day contains that instant; a smaller value is read as YYYYMMDD and gives the date that packs to it |
| PackedTime.IntToDateInstant | rqalpha_mod_fxdayu_source/data_source/mongo.py:118-122 | Packing a valid date with a time of day and unpacking it with the `> 100000000` rule of convert_int_to_date gives back the date |
| PackedTime.InstantOrder | rqalpha_mod_fxdayu_source/data_source/mongo.py:62-63 | A packed instant of an earlier date is smaller whatever the times of day; on the same date the instants are ordered as the times are |
| PackedTime.PrevDay | rqalpha_mod_fxdayu_source/data_source/mongo.py:127 | `today - relativedelta(days=1)` is a valid date strictly before today; it fails (None) exactly for 0001-01-01 |
| PackedTime.NextDay | rqalpha_mod_fxdayu_source/data_source/mongo.py:127 | The day after a date is valid and later; it fails exactly at 9999-12-31 |
| PackedTime.PrevNextRoundTrip | rqalpha_mod_fxdayu_source/data_source/mongo.py:127 | The day before and the day after undo each other, so "yesterday" is the one date whose next day is today |
| FieldMerger.Qualifies | rqalpha_mod_fxdayu_source/data_source/mongo.py:46 | Only a list of length `_l` is merged: a scalar never qualifies, and nothing does when `_l` is negative |
| FieldMerger.Repeat | rqalpha_mod_fxdayu_source/data_source/mongo.py:50 | `[fill] * n` has max(n, 0) elements, all equal to fill |
| FieldMerger.Find | rqalpha_mod_fxdayu_source/data_source/mongo.py:47 | The dict lookup finds a column exactly when the name is present, and finds its first (only) occurrence |
| FieldMerger.Append | rqalpha_mod_fxdayu_source/data_source/mongo.py:47 | `setdefault(key, seed).extend(values)`: the names gain `key`; names stay distinct; existing columns keep their place; the list under `key` becomes the old list (or the seed) followed by the values; every other list is unchanged |
| FieldMerger.ExtendFields | rqalpha_mod_fxdayu_source/data_source/mongo.py:45-47 | After one document the dict's names are the old names plus exactly those fields that are lists of length `_l`; names stay distinct and existing columns keep their place |
| FieldMerger.ExtendFieldsValues | rqalpha_mod_fxdayu_source/data_source/mongo.py:45-47 | The list under each name after one document is its old list (or the seed, when the document creates it) followed by the document's list when that list qualifies, and nothing otherwise |
| FieldMerger.PadColumns | rqalpha_mod_fxdayu_source/data_source/mongo.py:48-50 | Padding keeps every column's name and position |
| FieldMerger.PaddingEffect | rqalpha_mod_fxdayu_source/data_source/mongo.py:48-50 | A list of length `l` is left untouched; any other list keeps its elements as a prefix and gains exactly `l` copies of fill, and nothing but fill |
| FieldMerger.Step | rqalpha_mod_fxdayu_source/data_source/mongo.py:43-50 | One pass of the outer loop: `l` grows by the document's `_l`; the dict's names grow by exactly the document's qualifying fields, stay distinct, and existing columns keep their places |
| FieldMerger.Merged | rqalpha_mod_fxdayu_source/data_source/mongo.py:40-50 | The loop as written over the cursor's documents, in order; the running total `l` after the documents is the sum of their `_l` |
| FieldMerger.MergedColumnNames | rqalpha_mod_fxdayu_source/data_source/mongo.py:45-47 | The merged dict has one list per name, and exactly the names some document supplied as a list of its `_l` length; scalars and wrong-length lists never create a column |
| FieldMerger.PadAligned | rqalpha_mod_fxdayu_source/data_source/mongo.py:48-50 | When every list already has length `l`, padding changes nothing |
| FieldMerger.ConcatLength | rqalpha_mod_fxdayu_source/data_source/mongo.py:44-47 | In well-formed documents the concatenation of a field's lists is as long as the sum of the `_l` |
| FieldMerger.MergedWellFormed | rqalpha_mod_fxdayu_source/data_source/mongo.py:44-50 | If every document carries the same fields, each a list of length `_l`, then each merged list is the in-order concatenation of that field's lists and has length exactly `l` |
| FieldMerger.NoPaddingWhenWellFormed | rqalpha_mod_fxdayu_source/data_source/mongo.py:48-50 | In that aligned case the padding step of every document is a no-op |
| FieldMerger.MissingFieldOverPadded | rqalpha_mod_fxdayu_source/data_source/mongo.py:48-50 | Counter-example: a second document without `close` leaves `close` with two fill values (length 3 with `l` = 2); the intended merge pads it with one |
| FieldMerger.LateFieldAtFront | rqalpha_mod_fxdayu_source/data_source/mongo.py:47 | Counter-example: a field first supplied by the second document lands at the front of its list; the intended merge puts it in the second document's slot |
| FieldMerger.AlignedMergedSpec | rqalpha_mod_fxdayu_source/data_source/mongo.py:44-50 | The intended merge (new lists seeded with `l` fills, padding up to `l`) is aligned for every input: total is the sum of `_l`, names are the supplied names, and every list has length `l` and holds each document's list in that document's slot, or fill where it has none |
| FieldMerger.AlignedStep | rqalpha_mod_fxdayu_source/data_source/mongo.py:43-50 | One document merged as intended: the same total and the same names as the step as written; new lists are seeded with `l` fills and padding fills up to `l` |
| FieldMerger.AlignedMerged | rqalpha_mod_fxdayu_source/data_source/mongo.py:40-50 | The intended merge over the documents; its total is the sum of their `_l`, as in the code |
| FieldMerger.SilentOverPadding | rqalpha_mod_fxdayu_source/data_source/mongo.py:48-50 | Counter-example: a second document that supplies no list leaves both `datetime` and `close` with two fills each (length 3 with `l` = 2); the intended merge pads each with one |
| FieldMerger.ExpectedIsConcat | rqalpha_mod_fxdayu_source/data_source/mongo.py:44-47 | On well-formed documents the intended column is the plain concatenation of the field's lists |
| FieldMerger.AlignedAgreesWhenWellFormed | rqalpha_mod_fxdayu_source/data_source/mongo.py:44-50 | On well-formed documents the loop as written and the intended merge give the same total, the same names and the same list under every name |
| BarTable.Size | rqalpha_mod_fxdayu_source/data_source/mongo.py:52 | `df.size` is zero exactly when the frame has no columns or no rows |
| BarTable.Insert | rqalpha_mod_fxdayu_source/data_source/mongo.py:53 | Inserting into a sorted run keeps it sorted and adds exactly that bar |
| BarTable.SortByTime | rqalpha_mod_fxdayu_source/data_source/mongo.py:53 | `sort_values("datetime")`: the result is ascending in time and a permutation of the input rows; nothing is said about equal times |
| BarTable.ToBars | rqalpha_mod_fxdayu_source/data_source/mongo.py:76 | Row i of the frame holds the i-th value of every column in column order, and its time is the key of its `datetime` value |
| BarTable.Frame | rqalpha_mod_fxdayu_source/data_source/mongo.py:51-55 | Unequal list lengths fail (ValueError); otherwise size 0 gives None; otherwise a missing `datetime` fails (KeyError); otherwise the table keeps the dict's column names and its rows are sorted by time and a permutation of the dict's rows; each case holds in both directions |
| WindowTrimmer.Bisect | rqalpha_mod_fxdayu_source/data_source/mongo.py:79-80 | On sorted input bisection inside a bracket returns the insertion point: everything before it precedes the value and nothing after does |
| WindowTrimmer.SearchSorted | rqalpha_mod_fxdayu_source/data_source/mongo.py:79-80 | On sorted input, side "left" gives the first index whose time is >= v and side "right" the first index whose time is > v (|xs| when there is none) |
| WindowTrimmer.InWindow | rqalpha_mod_fxdayu_source/data_source/mongo.py:75-81 | Reference filter: the bars whose time lies in [start, end], in their order |
| WindowTrimmer.Trim | rqalpha_mod_fxdayu_source/data_source/mongo.py:79-81 | On bars sorted by time, `bars[s_pos:e_pos]` is exactly the bars with start <= time <= end, in order, and stays sorted; an empty table gives an empty result |
| WindowTrimmer.TrimIsWindow | rqalpha_mod_fxdayu_source/data_source/mongo.py:79-81 | The two searchsorted positions cut sorted bars into before, inside and after the window, including the crossed case (start > end), where the slice is empty |
| WindowTrimmer.TrimInclusiveEdges | rqalpha_mod_fxdayu_source/data_source/mongo.py:79-81 | Times 10, 20, 20, 30, 40 trimmed to [20, 30] keep 20, 20 and 30: both edges are inclusive |
| FrequencyRouter.EndsWith | rqalpha_mod_fxdayu_source/data_source/mongo.py:85 | `endswith` holds exactly when the string is some string followed by the suffix; for a one-character suffix, exactly when the last character is that character |
| FrequencyRouter.CodeOf | rqalpha_mod_fxdayu_source/data_source/mongo.py:64 | `split(".")[0]` is a prefix of the id with no "."; either it is the whole id or the id has a "." right after it |
| FrequencyRouter.CodeOfSuffixed | rqalpha_mod_fxdayu_source/data_source/mongo.py:89 | A code without "." followed by "." and any suffix gives back the code, and the code alone gives itself |
| FrequencyRouter.CodeOfIdempotent | rqalpha_mod_fxdayu_source/data_source/mongo.py:64 | Taking the code of a code changes nothing |
| FrequencyRouter.CollectionFor | rqalpha_mod_fxdayu_source/data_source/mongo.py:20-23 | Lookup through INSTRUMENT_TYPE_MAP: fails with KeyError exactly for kinds other than CS and INDX; CS gives "stock" + suffix and INDX gives "index" + suffix |
| FrequencyRouter.CollectionNames | rqalpha_mod_fxdayu_source/data_source/mongo.py:67-70 | Stocks are read from stock_min and stock_day, indexes from index_min and index_day |
| FrequencyRouter.RouteHistory | rqalpha_mod_fxdayu_source/data_source/mongo.py:85-96 | A frequency ending in "m" goes to the minute path for every kind, with the instrument, the frequency, the window and the length unchanged; any other frequency fails with KeyError exactly for unmapped kinds, and otherwise reads the daily collection of "quantaxis" by code, indexed and sorted ascending by "date", with the window and length passed through |
| FrequencyRouter.RawHistoryBars | rqalpha_mod_fxdayu_source/data_source/mongo.py:83-100 | A frequency ending in "m" is delegated to the minute path with the instrument and every argument unchanged; otherwise an unmapped kind gives the KeyError, and a mapped kind gives exactly the bars the daily read returns for the daily request (none when it returns nothing) |
| BarFetcher.DoGetBars | rqalpha_mod_fxdayu_source/data_source/mongo.py:39-55 | The nested loops produce exactly the frame of the merge as written over the cursor's documents |
| BarFetcher.ExtendWithDoc | rqalpha_mod_fxdayu_source/data_source/mongo.py:45-47 | The loop over a document's items computes ExtendFields of the dict with that document |
| BarFetcher.PadAll | rqalpha_mod_fxdayu_source/data_source/mongo.py:48-50 | The padding loop over the dict's lists computes PadColumns |
| BarFetcher.NoDataWhenNothingQualifies | rqalpha_mod_fxdayu_source/data_source/mongo.py:51-55 | Zero documents, or no document with a list of its `_l` length, gives None |
| BarFetcher.WellFormedFrame | rqalpha_mod_fxdayu_source/data_source/mongo.py:44-55 | For well-formed documents including `datetime`, the result is None exactly when the `_l` sum to 0, and otherwise a table of that many rows with one column per field, sorted by time and a permutation of the merged rows |
| BarFetcher.WellFormedShape | rqalpha_mod_fxdayu_source/data_source/mongo.py:44-51 | For well-formed documents the merged dict is non-empty, has the documents' field names, and all its lists have the summed length |
| BarFetcher.SilentOverPaddedFrame | rqalpha_mod_fxdayu_source/data_source/mongo.py:50-51 | The silent over-padding case builds a table without error, with three rows where the documents declare two; the intended merge gives a two-row table |
| BarFetcher.PairFrame | rqalpha_mod_fxdayu_source/data_source/mongo.py:51-53 | A dict of `datetime` and one other list fails to build when their lengths differ, and otherwise gives a table with one row per element |
| BarFetcher.OverPaddedFrameFails | rqalpha_mod_fxdayu_source/data_source/mongo.py:50-51 | The over-padded counter-example makes `pd.DataFrame` raise, while the intended merge gives a two-row table |
| BarFetcher.AlignedFrameBuilds | rqalpha_mod_fxdayu_source/data_source/mongo.py:50-51 | The intended merge never makes the frame construction fail on unequal lengths |
| BarFetcher.WindowBounds | rqalpha_mod_fxdayu_source/data_source/mongo.py:58-63 | An empty `params` is an error (IndexError); otherwise the window runs from the first date plus `start_time` (0 when absent) to the last date plus `end_time` (150000 when absent) |
| BarFetcher.WindowCovers | rqalpha_mod_fxdayu_source/data_source/mongo.py:58-63 | With valid dates and times, every instant of a day strictly between the first and last trading dates lies in the window, as do the instants of the first day from its start time on and of the last day up to its end time |
| BarFetcher.GetBarsInDays | rqalpha_mod_fxdayu_source/data_source/mongo.py:57-81 | Empty params fail first, then an unmapped kind; otherwise the store is queried for the instrument's minute collection by code, window and "1min". A pandas failure propagates; None gives no bars; a table gives exactly its bars inside the window. Every returned bar lies in the window, and the result is sorted |
| RangeResolver.RangeQueryFor | rqalpha_mod_fxdayu_source/data_source/mongo.py:109-112 | Frequencies ending in "d" query index_day by "date"; all others query index_min by "datetime" with type "1min"; always code 000001 in "quantaxis" |
| RangeResolver.GetDateRange | rqalpha_mod_fxdayu_source/data_source/mongo.py:106-122 | No matching document gives RuntimeError, and only then; a store answer always gives a range, and for valid datetimes that range is the dates of the earliest and latest documents |
| RangeResolver.AvailableRange | rqalpha_mod_fxdayu_source/data_source/mongo.py:125-128 | A frequency ending in "d" or "h" gives 2012-06-01 up to the day whose next day is `today` (an overflow error only for 0001-01-01); any other frequency gives the store range |
| RangeResolver.FixedRangeIgnoresStore | rqalpha_mod_fxdayu_source/data_source/mongo.py:126-127 | The daily and hourly range does not depend on the store |
| RangeResolver.RangeCache.AvailableDataRange | rqalpha_mod_fxdayu_source/data_source/mongo.py:124-128 | A frequency seen before returns its kept answer and changes nothing; otherwise the range is computed, and kept only when it is not an error (lru_cache does not keep exceptions); a successful answer is always kept afterwards |

## Left out

- The motor client, the async cursor and the event-loop bridge (lines 37, 42 and 73-74) are I/O. The cursor is the document sequence a `store` function returns.
- `MongoHandler.read` and the pymongo `find().sort().limit()` calls (lines 96 and 114-117) are foreign store calls. They are given results: `read`, and a `store` that returns the earliest and latest values or None.
- The projection on line 72 (`_id` and `_d` left out) is not modelled: documents arrive already without them.
- `MongoConverter.df2np` and `MongoConverter.empty` (lines 76-78 and 98-100) are not part of this model. A row is a bar whose packed time comes from a key function, and `empty()` is no bars.
- `.reset_index()` on line 96 is not modelled. The daily read is taken as its rows.
- `MiniteBarDataSourceMixin.raw_history_bars`, the minute path, is not part of this model. The router only records that the request is delegated, with the instrument and every argument unchanged.
- `CacheMixin`, `Singleton` and `OddFrequencyBaseDataSource` are not part of this model.
- `current_snapshot` (lines 103-104) does nothing.
- NaN as the fill value is floating point. The fill is a generic value, so NaN's inequality to itself plays no role.
- pandas internals are not modelled beyond the three outcomes: ValueError on unequal lengths, None on size 0, KeyError without `datetime`.
- BarTable.SortByTime: `sort_values("datetime")` orders rows by the stored `datetime` values (ISO text). The model orders them by `key` of those values, and so assumes that the df2np conversion preserves their order. pandas puts a NaN fill in `datetime` last (`na_position="last"`); that placement is not modelled, and `key(fill)` is placed by its value.
- The ISO-8601 text of the query bounds (`isoformat`, line 71) and of the stored range values (`fromisoformat`, lines 118-119) is not modelled. The query carries the packed bounds, and the store returns datetimes.
- The ValueError that `convert_int_to_datetime` raises for an out-of-range `start_time` / `end_time` is not modelled, because that conversion is part of the ISO path.
- `date.today()` is nondeterministic, so `today` is a parameter.
- LRU eviction by `lru_cache(maxsize=10)` is library behaviour. The memo is an unbounded map.
- A document without `_l` would raise KeyError at line 43. Documents always carry `declared`.
- The unused `frequency` parameter of `_get_bars_in_days` is not modelled.
- `raw_history_bars` passes its `start_dt`, `end_dt` and `length` through untouched, so they are opaque values.
- BarTable.SortByTime: stability is deliberately not promised, because pandas' default quicksort is not stable.
- RangeResolver.GetDateRange: the date equality is stated only for valid datetimes, since Python cannot construct invalid ones.
- WindowTrimmer.SearchSorted: the result is specified only for sorted input. On unsorted input numpy's answer is implementation-defined; the model's bisection is one such answer.

## Findings

| source | as written | input that shows it | evidently intended | confidence | as-written member | corrected member |
|---|---|---|---|---|---|---|
| rqalpha_mod_fxdayu_source/data_source/mongo.py:50 | `values.extend([fill] * l)` appends `l` copies, where `l` is the running total | `_l` = 1 twice; first document `{datetime: [t1], close: [c1]}`, second `{datetime: [t2]}`: `close` becomes `[c1, fill, fill]` (length 3, `l` = 2), and `pd.DataFrame` then raises ValueError | append `l - len(values)` copies, so every list has length `l`: `close` = `[c1, fill]` | high (proved on the model; not executed) | FieldMerger.MissingFieldOverPadded | FieldMerger.AlignedMergedSpec |
| rqalpha_mod_fxdayu_source/data_source/mongo.py:50 | `values.extend([fill] * l)` over-pads every list alike when a document supplies none of them | `_l` = 1 twice; first document `{datetime: [t1], close: [c1]}`, second `{}`: both lists become `[x, fill, fill]`, the lengths agree, and `pd.DataFrame` builds a 3-row frame with fill in `datetime` although `l` = 2 | pad to `l`: `datetime` = `[t1, fill]`, `close` = `[c1, fill]`, a 2-row frame | high (proved on the model; not executed) | FieldMerger.SilentOverPadding | FieldMerger.AlignedMergedSpec |
| rqalpha_mod_fxdayu_source/data_source/mongo.py:47 | `dct.setdefault(key, []).extend(values)` starts a field first seen in a later document at position 0 | `_l` = 1 twice; first document `{datetime: [t1]}`, second `{datetime: [t2], close: [c2]}`: `close` becomes `[c2, fill, fill]`, so `c2` sits in the first row | seed the new list with `[fill] * previous l`: `close` = `[fill, c2]` | high (proved on the model; not executed) | FieldMerger.LateFieldAtFront | FieldMerger.AlignedMergedSpec |

Both corrections live in `FieldMerger.AlignedStep` / `AlignedMerged`. The fill
seeds a new list for the documents before it, and padding fills up to the
running total. `FieldMerger.AlignedMergedSpec` proves this intended merge
aligned for every input. `BarFetcher.AlignedFrameBuilds` proves its frame
never fails on lengths. `FieldMerger.AlignedAgreesWhenWellFormed` proves it
equal to the code as written whenever every document is well-formed, so the
two differ only on the inputs above. `BarFetcher.DoGetBars` keeps the code's
behaviour as written. `BarFetcher.OverPaddedFrameFails` and
`BarFetcher.SilentOverPaddedFrame` show what the first defect costs a
caller: depending on which lists a document omits, the whole fetch raises,
or it returns extra rows of fill.
