# Portfolio-vs-Nifty50 returns pipeline, modelled in Dafny

This project models the data core of a small Streamlit dashboard (`app.py`).
The dashboard compares a mutual-fund portfolio's daily NAV with the Nifty50
index. The model covers three steps:

- **`preprocess_data`** (Preprocess module) cleans the spreadsheet rows in
  the source's order:
  - drop the footer rows whose `Date` is one of four labels;
  - drop the rows whose `NAV` is blank;
  - parse `Date` with `%d-%b-%y`;
  - sort by date;
  - parse `NAV` as a number;
  - turn `Nifty50 Change %` into a fraction;
  - build a synthetic benchmark level as the running product of `1 + change`.

  Each pandas step is a method. Its own loop, or the shared `ParseAll` loop,
  is proved against its contract. A cell that does not parse fails the whole run. The failure
  comes from the first column, in the source's order, that holds such a cell.
- **`calculate_returns`** (Returns module) takes the frame to two series:
  - the portfolio's daily returns, from `pct_change().dropna()` on the NAV;
  - the benchmark's changes, from `dropna()` on the change column.
- **`filter_data_by_date`** (Align module) cuts both series to the span they
  share. Start is the later of the two earliest dates. End is the earlier of
  the two latest dates. The cut is label slicing on an ascending date index,
  modelled as `searchsorted` positions and proved equal to a filter on dates.

Supporting modules:
- Dates: the `%d-%b-%y` parser, with the two-digit-year pivot of
  `strptime`: 69–99 is 19xx and 00–68 is 20xx.
- Numbers: the decimal-number subset of `to_numeric` and `float`, and
  `rstrip('%')`.
- Seqs: order-keeping filters and maps, and a column-parse loop.
- Pipeline: end-to-end facts and a worked two-day example.

Facts about the code that the model keeps:
- The code raises no error when the two date ranges do not meet (start
  after end). It returns two empty series.
- The code does not check for an empty dataset.
- An empty series has `NaT` as its earliest and latest date. Python's
  `max` and `min` then keep their first argument, because every comparison
  with `NaT` is false. The model carries these `NaT` bounds (as `None`)
  through `filter_data_by_date`.

## Model

| member | source | states |
|---|---|---|
| Seqs.ParseAll | app.py:43 | a column conversion succeeds exactly when every cell parses, and then yields each cell's parsed value in row order |
| Seqs.Filter | app.py:28-32 | a row selection keeps only rows that pass the test and every row that passes it, never more rows than the input |
| Seqs.FilterAppend | app.py:28-32 | a row selection commutes with concatenation, so it never reorders rows |
| Seqs.FilterMultiplicity | app.py:28-32 | each kept row occurs as often as in the input; each dropped row does not occur at all |
| Seqs.FilterKeepsAll | app.py:28-32 | when every row passes, the selection is the input itself |
| Seqs.AllOfPermutation | app.py:37 | a property holds of every row before a reordering exactly when it holds of every row after it |
| Seqs.MapPermutation | app.py:37 | converting the cells of two reorderings of the same rows gives reorderings of the same converted rows |
| Preprocess.DropSentinelRows | app.py:28-29 | the result is the order-keeping selection of rows whose `Date` is none of the four footer labels; every such row is kept and no other |
| Preprocess.Cleaned | app.py:28-32 | the rows left after both drops are input rows with a non-footer `Date` and a `NAV` cell, and every such input row is among them |
| Preprocess.DropMissingNav | app.py:32 | the result is the order-keeping selection of rows with a `NAV` cell; every such row is kept and no other |
| Preprocess.ParseDateColumn | app.py:35 | succeeds exactly when every `Date` cell parses, otherwise fails with the date error; row i of the result carries row i's parsed date and its untouched cells |
| Preprocess.InsertByDate | app.py:37 | inserting a row into a date-sorted list keeps it sorted and adds exactly that row |
| Preprocess.SortByDate | app.py:37 | the result's dates never decrease and it is a permutation of the input (nothing is promised about rows that share a date) |
| Preprocess.ToNumeric | app.py:43 | succeeds exactly when every `NAV` cell is a number, otherwise fails with the NAV error; value i is row i's number |
| Preprocess.ParseChangeColumn | app.py:46 | succeeds exactly when every present change cell is a number once trailing `%` are stripped, otherwise fails with the change error; value i is row i's fraction, or missing |
| Preprocess.CumProd | app.py:49 | each present level is the product of `1 + x` over all present changes up to and including its row; a missing change gives a missing level |
| Preprocess.LevelRecurrence | app.py:49 | with no missing change, the first level is `1 + c[0]` and each later level is the previous one times `1 + c[i]` |
| Preprocess.LevelSkipsMissing | app.py:49 | after a missing change the running product resumes from the product before the gap |
| Preprocess.AssembledFrame | app.py:37-49 | the assembled frame is sorted by date, its level column is the cumulative product of its change column, and its typed rows are a permutation of the typed cleaned rows |
| Preprocess.ColumnsParseAfterSort | app.py:37-46 | whether the NAV and change columns parse does not depend on the order the sort chose |
| Preprocess.PreprocessData | app.py:26-50 | succeeds exactly when every cleaned row's date, NAV and change parse; each failure kind occurs exactly when its column is the first in source order to hold a bad cell; on success the frame is sorted, its levels follow the cumulative-product rule, and its typed rows are a permutation of the cleaned rows |
| Numbers.ParseNumber | app.py:43 | an accepted number comes from non-empty text, and a negative one from text starting with `-`; text without a leading sign reads exactly as the unsigned decimal it spells |
| Numbers.ParseUnsigned | app.py:43 | an accepted unsigned decimal is never negative |
| Numbers.ParseUnsignedShape | app.py:43 | an accepted unsigned decimal is made of digits and at most one point, with at least one digit |
| Numbers.ParseNumberShape | app.py:43 | an accepted number is digits and at most one point, with at most a leading sign, and has at least one digit |
| Numbers.ParseWhole | app.py:43 | a run of digits parses to its decimal value |
| Numbers.ParseDecimal | app.py:43 | digits, a point and digits parse to the whole part plus the fraction scaled by its length |
| Numbers.ParseSigned | app.py:43 | a leading `-` negates the unsigned value and a leading `+` leaves it unchanged |
| Numbers.ParseNumberRejectsWord | app.py:43 | the text `abc` is not a number |
| Numbers.ParseNumberRejectsDottedThousands | app.py:43 | `1.234.567`, with dots as thousands separators, is not a number |
| Numbers.RStrip | app.py:46 | `rstrip` never lengthens the text and what it keeps does not end in the stripped character |
| Numbers.RStripTrailing | app.py:46 | `rstrip` keeps a prefix that does not end in the stripped character, and everything it removes is that character |
| Numbers.RStripRepeat | app.py:46 | appending any number of the stripped character does not change what `rstrip` keeps |
| Numbers.ParsePercentStrips | app.py:46 | a number followed by any count of `%`, including none, becomes that number divided by 100; anything else is rejected |
| Numbers.PercentExampleOne | app.py:46 | `1%` becomes 0.01 |
| Numbers.PercentExampleHalf | app.py:46 | `0.5%` becomes 0.005 |
| Numbers.PercentExampleBare | app.py:46 | a lone `%` is rejected |
| Dates.Later | app.py:60 | `max` of two dates is one of them and not before either |
| Dates.Earlier | app.py:61 | `min` of two dates is one of them and not after either |
| Dates.DaysInMonth | app.py:35 | month lengths are 28 to 31, and 29 exactly for February of a leap year |
| Dates.MonthNumber | app.py:35 | an accepted `%b` field is a month number from 1 to 12 |
| Dates.MonthNumberMatches | app.py:35 | `%b` accepts a month name exactly when it matches an English abbreviation ignoring case, and returns that month |
| Dates.MonthNumberOfAbbreviation | app.py:35 | each abbreviation is read back as its own month |
| Dates.AbbreviationsDistinct | app.py:35 | no two month abbreviations match each other ignoring case |
| Dates.ParseDay | app.py:35 | an accepted `%d` is between 1 and 31 |
| Dates.ParseDayValue | app.py:35 | an accepted `%d` field is the number its digits spell, after an optional leading space (`7`, ` 7` and `07` are day 7) |
| Dates.ParseYear | app.py:35 | an accepted `%y` lies in 1969..2068 |
| Dates.ParseDate | app.py:35 | an accepted date cell names a day that exists in its month, in the two-digit-year window 1969..2068 |
| Dates.ParseDateSound | app.py:35 | an accepted cell has eight or nine characters with its dashes in place, and names a date that exists, within 1969..2068 |
| Dates.ParseFormatRoundTrip | app.py:35 | formatting a valid date in 1969..2068 as `%d-%b-%y` and parsing it gives the date back |
| Dates.ParseDateExample | app.py:35 | `01-Jan-24` and `1-jan-24` are 1 January 2024 |
| Dates.ParseDateRejectsFeb29OfCommonYear | app.py:35 | `29-Feb-23` is rejected, since that day does not exist |
| Returns.RatioMinusOne | app.py:54 | the ratio-minus-one step of `pct_change` equals the relative change `(now - before) / before` |
| Returns.PctChange | app.py:54 | same length and dates as the input; the first entry is missing; entry i is the relative change from i-1 to i |
| Returns.DropNa | app.py:54-55 | `dropna` never lengthens a series |
| Returns.DropNaMembership | app.py:54-55 | an entry survives `dropna` exactly when it is present in the input with that date and value |
| Returns.DropNaAppend | app.py:54-55 | `dropna` commutes with concatenation, so it keeps order |
| Returns.DropNaAllPresent | app.py:54-55 | with nothing missing, `dropna` keeps every entry in place |
| Returns.DropNaAscending | app.py:54-55 | `dropna` of an ascending series is ascending |
| Returns.DropFirstMissing | app.py:54 | when only the first entry is missing, `dropna` removes exactly that entry |
| Returns.PortfolioReturns | app.py:54 | one entry fewer than the frame; entry i-1 is keyed by row i's date and is `(NAV[i] - NAV[i-1]) / NAV[i-1]` |
| Returns.BenchmarkReturns | app.py:55 | at most one benchmark entry per row |
| Returns.BenchmarkMembership | app.py:55 | an entry is in the benchmark series exactly when some row has that date and that present change |
| Returns.BenchmarkAppend | app.py:55 | the benchmark series of concatenated frames is the concatenation, so row order is kept |
| Returns.BenchmarkOfRow | app.py:55 | one row contributes its change, keyed by its date, exactly when the change is present |
| Returns.CalculateReturns | app.py:53-56 | the portfolio series has one entry fewer than the frame, the benchmark series no more than the frame, and a frame sorted by date gives two series with ascending dates |
| Returns.ReturnsAscending | app.py:53-56 | a frame sorted by date gives return series whose dates ascend |
| Align.MinDate | app.py:60 | `index.min()` is a date of the series and no date of the series is before it |
| Align.MaxDate | app.py:61 | `index.max()` is a date of the series and no date of the series is after it |
| Align.AscendingBounds | app.py:60-61 | an ascending series starts at its minimum and ends at its maximum |
| Align.Window | app.py:63-64 | the date window never lengthens a series |
| Align.WindowMembership | app.py:63-64 | an entry is in the window exactly when it is in the series and dated within the inclusive bounds |
| Align.WindowAppend | app.py:63-64 | windowing commutes with concatenation, so it keeps order |
| Align.WindowAll | app.py:63-64 | a window covering every entry returns the series unchanged |
| Align.WindowNone | app.py:63-64 | a window covering no entry is empty |
| Align.SearchLeft | app.py:63 | the left insertion point of the start label: all earlier positions are before it, all later ones not before it |
| Align.SearchRight | app.py:64 | the right insertion point of the end label: all earlier positions are not after it, all later ones after it |
| Align.SliceIsWindow | app.py:63-64 | the slice between the two insertion points is exactly the date window |
| Align.WindowOfThree | app.py:63-64 | a window that keeps a middle stretch and drops both sides returns that stretch |
| Align.WindowOfRange | app.py:63-64 | a stretch lying wholly inside the bounds is kept whole, one wholly outside is dropped |
| Align.SliceByLabel | app.py:63-64 | label slicing of an ascending index equals the inclusive date window, and is empty when start is after end; `NaT` sorts after every date, so a `NaT` start keeps nothing and a real start with a `NaT` end keeps every entry from the start on |
| Align.MaxStamp | app.py:60 | Python's `max` of two timestamps: `NaT` when the first is `NaT`, the first when the second is `NaT`, otherwise the later of the two |
| Align.MinStamp | app.py:61 | Python's `min` of two timestamps: `NaT` when the first is `NaT`, the first when the second is `NaT`, otherwise the earlier of the two |
| Align.WindowOwnRange | app.py:60-64 | a series cut to its own earliest and latest date is the whole series |
| Align.FilterDataByDate | app.py:59-65 | `index.min()`/`index.max()` (`IndexMin`/`IndexMax`) are `NaT` for an empty series; with both series non-empty, start is the later minimum, end is the earlier maximum, and each output is its input's inclusive window; an empty benchmark leaves the portfolio whole over its own span; an empty portfolio gives `NaT` bounds and two empty series; it never fails |
| Align.BoundsNaTTogether | app.py:60-61 | the start and the end are `NaT` together, exactly when the portfolio series is empty |
| Align.WithinOwnRange | app.py:60-61 | every entry lies between its own series' minimum and maximum |
| Align.WindowOfOverlap | app.py:60-64 | an entry of one series survives the span exactly when it lies within the other series' range |
| Align.AlignedIsOverlap | app.py:59-65 | an entry of either output is exactly an entry of its input dated within the other input's range |
| Align.AlignIdentical | app.py:59-65 | aligning a series with itself returns it unchanged, spanning its first to last date; the empty series comes back empty with `NaT` bounds |
| Align.AlignNoOverlap | app.py:59-65 | when the span's start is after its end (either series ending before the other starts), both series come back empty, with no error |
| Pipeline.StrictlyAscendingSorted | app.py:37 | distinct ascending dates are sorted |
| Pipeline.ShiftedSpan | app.py:60-61 | when the benchmark has one extra earlier day, the span runs from the portfolio's first to last date |
| Pipeline.ShiftedWindows | app.py:63-64 | that span keeps the whole portfolio and all of the benchmark but its first day |
| Pipeline.AlignShifted | app.py:59-65 | alignment of such series returns the portfolio unchanged and the benchmark without its first day |
| Pipeline.SameIndex | app.py:63-64 | series with the same dates position by position have equal indexes |
| Pipeline.BenchmarkAllPresent | app.py:55 | with a change on every row, the benchmark series is the change column, row for row |
| Pipeline.IndexShift | app.py:54-55 | portfolio entry i shares its date with benchmark entry i+1 |
| Pipeline.ReturnsShifted | app.py:53-56 | for a frame with distinct ascending dates and every change present, the benchmark series has one more entry than the portfolio series and is shifted one day earlier |
| Pipeline.AlignedDatesAgree | app.py:53-65 | for such a frame, alignment spans its second to last date, keeps every portfolio return, drops only the first benchmark day, and both aligned series share one date index |
| Pipeline.TwoDayPortfolio | app.py:54 | NAV 100 then 102 gives a single 2% return on the second day |
| Pipeline.TwoDayBenchmark | app.py:55 | changes of 1% and 0.5% give both days in order |
| Pipeline.TwoDayReturns | app.py:53-56 | the two series of the two-day frame |
| Pipeline.TwoDayExample | app.py:53-65 | both aligned series hold only the second day, returns 0.02 and 0.005, with the span that day alone |

## Left out

- `load_data` (lines 16-23) and `main`: the network fetch, the cache, the
  Streamlit page, the QuantStats report and the charts are I/O. The model
  starts from the rows already read.
- `read_csv` type inference and its default missing-value markers: a cell is
  modelled as text or blank. A NAV column that pandas already reads as
  numbers is covered, because parsing then succeeds.
- Line 39, which removes the time-zone info from each date: the dates are
  calendar days with no time zone, so this step changes nothing here.
- Line 29 mutates the frame in place: this is modelled as a new sequence of
  rows. No other reference to the frame is observed.
- Floating point: every number is an exact real. The model does not capture
  rounding in `float()`, in division or in the running product, nor NaN or
  infinity.
- Number syntax: only optional sign, digits and at most one point are
  accepted. The model rejects several forms Python accepts: exponents,
  surrounding whitespace, `inf`/`nan`, digit-group underscores and non-ASCII
  digits. Month names are matched with ASCII case folding only.
- Preprocess.SortByDate: the contract gives sorted order and a permutation
  only. The source's default quicksort does not fix the order of equal
  dates. The model's insertion sort picks one order, but nothing depends on it.
- Returns.PortfolioReturns: it requires every NAV that a later NAV is divided
  by to be non-zero. pandas would produce infinity or NaN there, which the
  real-number model does not represent.
- Returns.CalculateReturns: it carries the same non-zero-divisor requirement,
  for the same reason.
- Blank or `NaT` date cells: `pd.to_datetime` turns a blank `Date` cell, an
  empty string or the text `NaT` into `NaT` without an error, and the row is
  kept (line 35). The model reads every `Date` cell as text, so such a cell
  fails with the date error.
- A change column read as numbers: when no cell of `Nifty50 Change %` holds
  text (every cell blank or a plain number), pandas reads it as floats, and
  `.str` at line 46 raises. The model reads each change cell as text and
  succeeds on such rows.
- Align.SliceByLabel: a `NaT` bound is placed after every date, as numpy 1.18
  and later order `NaT` in `searchsorted` on datetimes, which pandas 1.2 and
  later call for label slicing. Older versions placed it before every date.
  Only the case of two `NaT` bounds occurs in `filter_data_by_date`, and it
  gives an empty slice under either order.
- Non-ASCII digits in dates: `%d` and `%y` match any Unicode decimal digit.
  The model accepts only the ASCII digits `0`-`9` there.
- The two-day example in `Pipeline` starts from a frame written out
  directly, not from raw rows run through `PreprocessData`.
- Duplicate dates after the sort are neither rejected nor merged, as in the
  code. `pct_change` then compares rows in whatever order the sort left them.
