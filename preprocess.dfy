/**
 * `preprocess_data`: the spreadsheet rows are cleaned step by step into a
 * frame sorted by date, with the NAV as a number, the benchmark change as a
 * fraction, and a synthetic benchmark level built by a running product.
 * Each pandas step is a method whose loop, or the shared `ParseAll` loop,
 * is proved against its contract; `PreprocessData` runs them in the order
 * the source does.
 */
module Preprocess {
  import opened Wrappers
  import opened Dates
  import opened Numbers
  import opened Seqs

  /** One spreadsheet row as read: the `Date` cell, and the `NAV` and `Nifty50 Change %` cells, either of which may be blank. */
  datatype RawRow = RawRow(date: string, nav: Option<string>, change: Option<string>)

  /** A row once its `Date` has been parsed; its NAV is still text. */
  datatype DatedRow = DatedRow(date: Date, nav: string, change: Option<string>)

  /** What a row says once every cell is typed: date, NAV, benchmark change as a fraction. */
  datatype Quote = Quote(date: Date, nav: real, change: Option<real>)

  /** A row of the preprocessed frame: the typed cells plus the synthetic benchmark level (`Nifty50 NAV`). */
  datatype Observation = Observation(date: Date, nav: real, change: Option<real>, level: Option<real>)

  /** The ways preprocessing fails: a cell that does not parse, per column. */
  datatype PreprocessError = DateParseError | NavParseError | ChangeParseError

  /** `Date` labels of the spreadsheet's footer rows, which are not observations. */
  const SentinelLabels: set<string> := {"Portfolio Value", "Absolute Gain", "Nifty50", "Day Change"}

  predicate NotSentinel(r: RawRow) {
    r.date !in SentinelLabels
  }

  predicate HasNav(r: RawRow) {
    r.nav.Some?
  }

  /** The rows that survive both drops, in their original order. */
  function Cleaned(data: seq<RawRow>): (r: seq<RawRow>)
    ensures forall i :: 0 <= i < |r| ==> r[i] in data && NotSentinel(r[i]) && HasNav(r[i])
    ensures forall i :: 0 <= i < |data| && NotSentinel(data[i]) && HasNav(data[i]) ==> data[i] in r
  {
    Filter(Filter(data, NotSentinel), HasNav)
  }

  predicate DatesParse(rows: seq<RawRow>) {
    forall i :: 0 <= i < |rows| ==> ParseDate(rows[i].date).Some?
  }

  /** A NAV cell that `pd.to_numeric` accepts (a blank one stays missing). */
  predicate NavParses(nav: Option<string>) {
    nav.None? || ParseNumber(nav.value).Some?
  }

  predicate NavsParse(rows: seq<RawRow>) {
    forall i :: 0 <= i < |rows| ==> NavParses(rows[i].nav)
  }

  /** A change cell that `rstrip('%').astype('float')` accepts (a blank one stays missing). */
  predicate ChangeParses(c: Option<string>) {
    c.None? || ParsePercent(c.value).Some?
  }

  predicate ChangesParse(rows: seq<RawRow>) {
    forall i :: 0 <= i < |rows| ==> ChangeParses(rows[i].change)
  }

  /** The benchmark change as a fraction: `"1%"` is 0.01; a blank cell stays missing. */
  function ChangeValue(c: Option<string>): (v: Option<real>)
    requires ChangeParses(c)
    ensures v.None? <==> c.None?
    ensures c.Some? ==> v == ParsePercent(c.value)
  {
    if c.None? then None else ParsePercent(c.value)
  }

  predicate RowParses(r: RawRow) {
    r.nav.Some? && ParseDate(r.date).Some? && NavParses(r.nav) && ChangeParses(r.change)
  }

  /** The typed content of a row whose cells all parse. */
  function QuoteOf(r: RawRow): Quote
    requires RowParses(r)
  {
    Quote(ParseDate(r.date).value, ParseNumber(r.nav.value).value, ChangeValue(r.change))
  }

  predicate DatedRowParses(d: DatedRow) {
    ParseNumber(d.nav).Some? && ChangeParses(d.change)
  }

  function DatedQuote(d: DatedRow): Quote
    requires DatedRowParses(d)
  {
    Quote(d.date, ParseNumber(d.nav).value, ChangeValue(d.change))
  }

  function Unlevelled(o: Observation): Quote {
    Quote(o.date, o.nav, o.change)
  }

  predicate DatedSorted(rows: seq<DatedRow>) {
    forall i, j :: 0 <= i < j < |rows| ==> NotAfter(rows[i].date, rows[j].date)
  }

  /** Dates never decrease down the frame (equal dates may repeat). */
  predicate SortedByDate(frame: seq<Observation>) {
    forall i, j :: 0 <= i < j < |frame| ==> NotAfter(frame[i].date, frame[j].date)
  }

  /** `1 + x` for a present change `x`; a missing change contributes nothing to the product. */
  function Factor(c: Option<real>): real {
    if c.Some? then 1.0 + c.value else 1.0
  }

  /** The product of `1 + x` over the present changes `x` (missing ones are skipped). */
  function Growth(c: seq<Option<real>>): real {
    if c == [] then 1.0 else Growth(c[..|c| - 1]) * Factor(c[|c| - 1])
  }

  /**
   * `(1 + c).cumprod()` with pandas' skipna rule: a missing change gives a
   * missing level, and the running product carries on over the present ones,
   * so a present level is the product over every present change up to and
   * including its own row.
   */
  predicate CumulativeLevels(c: seq<Option<real>>, levels: seq<Option<real>>) {
    && |levels| == |c|
    && forall i :: 0 <= i < |c| ==> levels[i] == if c[i].None? then None else Some(Growth(c[..i + 1]))
  }

  lemma GrowthStep(c: seq<Option<real>>, i: int)
    requires 0 <= i < |c|
    ensures Growth(c[..i + 1]) == Growth(c[..i]) * Factor(c[i])
  {
    assert c[..i + 1][..i] == c[..i];
  }

  function ChangeColumn(frame: seq<Observation>): (c: seq<Option<real>>)
    ensures |c| == |frame| && forall i :: 0 <= i < |frame| ==> c[i] == frame[i].change
  {
    seq(|frame|, i requires 0 <= i < |frame| => frame[i].change)
  }

  function LevelColumn(frame: seq<Observation>): (c: seq<Option<real>>)
    ensures |c| == |frame| && forall i :: 0 <= i < |frame| ==> c[i] == frame[i].level
  {
    seq(|frame|, i requires 0 <= i < |frame| => frame[i].level)
  }

  /** The frame's `Nifty50 NAV` column is the cumulative product of its change column. */
  predicate LevelsFollow(frame: seq<Observation>) {
    CumulativeLevels(ChangeColumn(frame), LevelColumn(frame))
  }

  /**
   * With no missing change, the level starts at `1 + c[0]` and each level is
   * the previous one times `1 + c[i]`.
   */
  lemma {:induction false} LevelRecurrence(c: seq<Option<real>>, levels: seq<Option<real>>)
    requires CumulativeLevels(c, levels)
    requires forall i :: 0 <= i < |c| ==> c[i].Some?
    ensures |c| > 0 ==> levels[0] == Some(1.0 + c[0].value)
    ensures forall i :: 1 <= i < |c| ==> levels[i] == Some(levels[i - 1].value * (1.0 + c[i].value))
  {
    if |c| > 0 {
      GrowthStep(c, 0);
      assert c[..0] == [];
    }
    forall i | 1 <= i < |c|
      ensures levels[i] == Some(levels[i - 1].value * (1.0 + c[i].value))
    {
      GrowthStep(c, i);
      var previous, x := Growth(c[..i]), c[i].value;
      assert Factor(c[i]) == 1.0 + x;
      assert levels[i - 1] == Some(previous);
      assert levels[i] == Some(Growth(c[..i + 1]));
      assert Growth(c[..i + 1]) == previous * (1.0 + x);
      assert previous * (1.0 + x) == levels[i - 1].value * (1.0 + c[i].value);
    }
  }

  /**
   * A missing change leaves the running product where it was: the next
   * present level is the product up to the row before the gap times its own
   * `1 + c[i]`.
   */
  lemma {:induction false} LevelSkipsMissing(c: seq<Option<real>>, levels: seq<Option<real>>, i: int)
    requires CumulativeLevels(c, levels)
    requires 1 <= i < |c| && c[i - 1].None? && c[i].Some?
    ensures levels[i - 1].None?
    ensures levels[i] == Some(Growth(c[..i - 1]) * (1.0 + c[i].value))
  {
    GrowthStep(c, i);
    GrowthStep(c, i - 1);
    var before, x := Growth(c[..i - 1]), c[i].value;
    assert Factor(c[i - 1]) == 1.0;
    assert Factor(c[i]) == 1.0 + x;
    assert Growth(c[..i]) == before;
    assert levels[i] == Some(Growth(c[..i + 1]));
    assert Growth(c[..i + 1]) == before * (1.0 + x);
    assert before * (1.0 + x) == Growth(c[..i - 1]) * (1.0 + c[i].value);
  }

  /** Lines 28-29: drop the footer rows whose `Date` is one of the sentinel labels. */
  method DropSentinelRows(data: seq<RawRow>) returns (kept: seq<RawRow>)
    ensures kept == Filter(data, NotSentinel)
    ensures forall i :: 0 <= i < |kept| ==> kept[i].date !in SentinelLabels && kept[i] in data
    ensures forall i :: 0 <= i < |data| && data[i].date !in SentinelLabels ==> data[i] in kept
  {
    kept := [];
    for i := 0 to |data|
      invariant kept == Filter(data[..i], NotSentinel)
    {
      assert data[..i + 1] == data[..i] + [data[i]];
      FilterAppend(data[..i], [data[i]], NotSentinel);
      assert [data[i]][1..] == [];
      if data[i].date !in SentinelLabels {
        kept := kept + [data[i]];
      }
    }
    assert data[..|data|] == data;
  }

  /** Line 32: drop the rows whose `NAV` cell is blank. */
  method DropMissingNav(rows: seq<RawRow>) returns (kept: seq<RawRow>)
    ensures kept == Filter(rows, HasNav)
    ensures forall i :: 0 <= i < |kept| ==> kept[i].nav.Some? && kept[i] in rows
    ensures forall i :: 0 <= i < |rows| && rows[i].nav.Some? ==> rows[i] in kept
  {
    kept := [];
    for i := 0 to |rows|
      invariant kept == Filter(rows[..i], HasNav)
    {
      assert rows[..i + 1] == rows[..i] + [rows[i]];
      FilterAppend(rows[..i], [rows[i]], HasNav);
      assert [rows[i]][1..] == [];
      if rows[i].nav.Some? {
        kept := kept + [rows[i]];
      }
    }
    assert rows[..|rows|] == rows;
  }

  /** Line 35: parse every `Date` cell; one cell that does not parse fails the whole step. */
  method ParseDateColumn(rows: seq<RawRow>) returns (r: Result<seq<DatedRow>, PreprocessError>)
    requires forall i :: 0 <= i < |rows| ==> rows[i].nav.Some?
    ensures r.Success? <==> DatesParse(rows)
    ensures r.Failure? ==> r.error == DateParseError
    ensures r.Success? ==> |r.value| == |rows| && forall i :: 0 <= i < |rows| ==>
              r.value[i] == DatedRow(ParseDate(rows[i].date).value, rows[i].nav.value, rows[i].change)
  {
    var dated := ParseAll(rows, (row: RawRow) requires row.nav.Some? =>
      if ParseDate(row.date).Some? then Some(DatedRow(ParseDate(row.date).value, row.nav.value, row.change)) else None);
    if dated.None? {
      return Failure(DateParseError);
    }
    return Success(dated.value);
  }

  /** Puts `x` after every row dated no later than it, keeping the rows sorted. */
  method InsertByDate(sorted: seq<DatedRow>, x: DatedRow) returns (r: seq<DatedRow>)
    requires DatedSorted(sorted)
    ensures DatedSorted(r)
    ensures multiset(r) == multiset(sorted) + multiset{x}
  {
    var j := 0;
    while j < |sorted| && NotAfter(sorted[j].date, x.date)
      invariant 0 <= j <= |sorted|
      invariant forall k :: 0 <= k < j ==> NotAfter(sorted[k].date, x.date)
    {
      j := j + 1;
    }
    r := sorted[..j] + [x] + sorted[j..];
    assert sorted == sorted[..j] + sorted[j..];
    assert forall k :: j <= k < |sorted| ==> NotAfter(x.date, sorted[k].date);
  }

  /**
   * Line 37: `sort_values(by='Date')`. Its default algorithm is not stable, so
   * the contract promises ascending dates and a permutation, and nothing
   * about the order of rows that share a date.
   */
  method SortByDate(rows: seq<DatedRow>) returns (sorted: seq<DatedRow>)
    ensures DatedSorted(sorted)
    ensures multiset(sorted) == multiset(rows)
  {
    sorted := [];
    for i := 0 to |rows|
      invariant DatedSorted(sorted)
      invariant multiset(sorted) == multiset(rows[..i])
    {
      assert rows[..i + 1] == rows[..i] + [rows[i]];
      sorted := InsertByDate(sorted, rows[i]);
    }
    assert rows[..|rows|] == rows;
  }

  /** Line 43: `pd.to_numeric` on the NAV column; one cell that is not a number fails the whole step. */
  method ToNumeric(rows: seq<DatedRow>) returns (r: Result<seq<real>, PreprocessError>)
    ensures r.Success? <==> forall i :: 0 <= i < |rows| ==> ParseNumber(rows[i].nav).Some?
    ensures r.Failure? ==> r.error == NavParseError
    ensures r.Success? ==> |r.value| == |rows| && forall i :: 0 <= i < |rows| ==> ParseNumber(rows[i].nav) == Some(r.value[i])
  {
    var navs := ParseAll(rows, (row: DatedRow) => ParseNumber(row.nav));
    if navs.None? {
      return Failure(NavParseError);
    }
    return Success(navs.value);
  }

  /** Line 46: the change column as fractions; a present cell that is not a number fails the whole step. */
  method ParseChangeColumn(rows: seq<DatedRow>) returns (r: Result<seq<Option<real>>, PreprocessError>)
    ensures r.Success? <==> forall i :: 0 <= i < |rows| ==> ChangeParses(rows[i].change)
    ensures r.Failure? ==> r.error == ChangeParseError
    ensures r.Success? ==> |r.value| == |rows| && forall i :: 0 <= i < |rows| ==>
              ChangeParses(rows[i].change) && r.value[i] == ChangeValue(rows[i].change)
  {
    var changes := ParseAll(rows, (row: DatedRow) =>
      if ChangeParses(row.change) then Some(ChangeValue(row.change)) else None);
    if changes.None? {
      return Failure(ChangeParseError);
    }
    return Success(changes.value);
  }

  /** Line 49: the benchmark level `(1 + change).cumprod()`. */
  method CumProd(c: seq<Option<real>>) returns (levels: seq<Option<real>>)
    ensures CumulativeLevels(c, levels)
  {
    var acc := 1.0;
    levels := [];
    for i := 0 to |c|
      invariant acc == Growth(c[..i])
      invariant |levels| == i
      invariant forall k :: 0 <= k < i ==> levels[k] == if c[k].None? then None else Some(Growth(c[..k + 1]))
    {
      GrowthStep(c, i);
      acc := acc * Factor(c[i]);
      levels := levels + [if c[i].None? then None else Some(acc)];
    }
  }

  /**
   * `preprocess_data`. It fails on the first column, in the source's order
   * (dates, then NAV, then change), that holds a cell that does not parse.
   * Otherwise the frame holds exactly the typed cleaned rows, reordered
   * so that dates ascend, with the cumulative benchmark level alongside.
   */
  method PreprocessData(data: seq<RawRow>) returns (r: Result<seq<Observation>, PreprocessError>)
    ensures r.Success? <==> DatesParse(Cleaned(data)) && NavsParse(Cleaned(data)) && ChangesParse(Cleaned(data))
    ensures r == Failure(DateParseError) <==> !DatesParse(Cleaned(data))
    ensures r == Failure(NavParseError) <==> DatesParse(Cleaned(data)) && !NavsParse(Cleaned(data))
    ensures r == Failure(ChangeParseError) <==>
              DatesParse(Cleaned(data)) && NavsParse(Cleaned(data)) && !ChangesParse(Cleaned(data))
    ensures r.Success? ==> SortedByDate(r.value) && LevelsFollow(r.value)
    ensures r.Success? ==>
              && (forall i :: 0 <= i < |Cleaned(data)| ==> RowParses(Cleaned(data)[i]))
              && multiset(Map(r.value, Unlevelled)) == multiset(Map(Cleaned(data), QuoteOf))
  {
    var rows := DropSentinelRows(data);
    rows := DropMissingNav(rows);
    assert rows == Cleaned(data);
    var dated := ParseDateColumn(rows);
    if dated.Failure? {
      return Failure(DateParseError);
    }
    var sorted := SortByDate(dated.value);
    ColumnsParseAfterSort(rows, dated.value, sorted);
    var navs := ToNumeric(sorted);
    if navs.Failure? {
      return Failure(NavParseError);
    }
    var changes := ParseChangeColumn(sorted);
    if changes.Failure? {
      return Failure(ChangeParseError);
    }
    var levels := CumProd(changes.value);
    AssembledFrame(rows, dated.value, sorted, navs.value, changes.value, levels);
    return Success(Assemble(sorted, navs.value, changes.value, levels));
  }

  /** Line 40 and the column assignments: the frame indexed by date, one observation per sorted row. */
  function Assemble(sorted: seq<DatedRow>, navs: seq<real>, changes: seq<Option<real>>, levels: seq<Option<real>>): (frame: seq<Observation>)
    requires |navs| == |sorted| && |changes| == |sorted| && |levels| == |sorted|
    ensures |frame| == |sorted|
    ensures forall i :: 0 <= i < |sorted| ==> frame[i] == Observation(sorted[i].date, navs[i], changes[i], levels[i])
  {
    seq(|sorted|, i requires 0 <= i < |sorted| => Observation(sorted[i].date, navs[i], changes[i], levels[i]))
  }

  /** The assembled frame is sorted, carries the cumulative levels, and is a permutation of the typed cleaned rows. */
  lemma AssembledFrame(rows: seq<RawRow>, dated: seq<DatedRow>, sorted: seq<DatedRow>,
                       navs: seq<real>, changes: seq<Option<real>>, levels: seq<Option<real>>)
    requires forall i :: 0 <= i < |rows| ==> rows[i].nav.Some?
    requires DatesParse(rows) && NavsParse(rows) && ChangesParse(rows)
    requires |dated| == |rows| && forall i :: 0 <= i < |rows| ==>
               dated[i] == DatedRow(ParseDate(rows[i].date).value, rows[i].nav.value, rows[i].change)
    requires DatedSorted(sorted) && multiset(sorted) == multiset(dated)
    requires forall i :: 0 <= i < |sorted| ==> DatedRowParses(sorted[i])
    requires |navs| == |sorted| && forall i :: 0 <= i < |sorted| ==> ParseNumber(sorted[i].nav) == Some(navs[i])
    requires |changes| == |sorted| && forall i :: 0 <= i < |sorted| ==>
               ChangeParses(sorted[i].change) && changes[i] == ChangeValue(sorted[i].change)
    requires CumulativeLevels(changes, levels)
    ensures SortedByDate(Assemble(sorted, navs, changes, levels))
    ensures LevelsFollow(Assemble(sorted, navs, changes, levels))
    ensures forall i :: 0 <= i < |rows| ==> RowParses(rows[i])
    ensures multiset(Map(Assemble(sorted, navs, changes, levels), Unlevelled)) == multiset(Map(rows, QuoteOf))
  {
    var frame := Assemble(sorted, navs, changes, levels);
    assert ChangeColumn(frame) == changes;
    assert LevelColumn(frame) == levels;
    assert Map(frame, Unlevelled) == Map(sorted, DatedQuote);
    DatedRowsParse(rows, dated);
    MapPermutation(sorted, dated, DatedQuote);
    assert Map(dated, DatedQuote) == Map(rows, QuoteOf);
  }

  lemma DatedRowsParse(rows: seq<RawRow>, dated: seq<DatedRow>)
    requires forall i :: 0 <= i < |rows| ==> rows[i].nav.Some?
    requires DatesParse(rows) && NavsParse(rows) && ChangesParse(rows)
    requires |dated| == |rows| && forall i :: 0 <= i < |rows| ==>
               dated[i] == DatedRow(ParseDate(rows[i].date).value, rows[i].nav.value, rows[i].change)
    ensures forall i :: 0 <= i < |dated| ==> DatedRowParses(dated[i]) && RowParses(rows[i]) && DatedQuote(dated[i]) == QuoteOf(rows[i])
  {
    forall i | 0 <= i < |dated|
      ensures DatedRowParses(dated[i]) && RowParses(rows[i]) && DatedQuote(dated[i]) == QuoteOf(rows[i])
    {
      assert NavParses(rows[i].nav) && ChangeParses(rows[i].change);
    }
  }

  /** Whether the NAV and change columns parse does not depend on the row order the sort chose. */
  lemma ColumnsParseAfterSort(rows: seq<RawRow>, dated: seq<DatedRow>, sorted: seq<DatedRow>)
    requires forall i :: 0 <= i < |rows| ==> rows[i].nav.Some?
    requires DatesParse(rows)
    requires |dated| == |rows| && forall i :: 0 <= i < |rows| ==>
               dated[i] == DatedRow(ParseDate(rows[i].date).value, rows[i].nav.value, rows[i].change)
    requires multiset(sorted) == multiset(dated)
    ensures (forall i :: 0 <= i < |sorted| ==> ParseNumber(sorted[i].nav).Some?) <==> NavsParse(rows)
    ensures (forall i :: 0 <= i < |sorted| ==> ChangeParses(sorted[i].change)) <==> ChangesParse(rows)
    ensures (forall i :: 0 <= i < |sorted| ==> DatedRowParses(sorted[i])) <==> NavsParse(rows) && ChangesParse(rows)
  {
    AllOfPermutation(sorted, dated, (d: DatedRow) => ParseNumber(d.nav).Some?);
    AllOfPermutation(sorted, dated, (d: DatedRow) => ChangeParses(d.change));
    AllOfPermutation(sorted, dated, DatedRowParses);
  }
}
