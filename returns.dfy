/**
 * `calculate_returns`: the portfolio's period-over-period returns from the
 * NAV column, and the benchmark's returns, which are the change column itself
 * with its missing entries dropped.
 */
module Returns {
  import opened Wrappers
  import opened Dates
  import opened Preprocess

  /** One entry of a pandas Series indexed by date. */
  datatype Labelled<T> = Labelled(date: Date, value: T)

  /** A return series: fractional returns keyed by date. */
  type Series = seq<Labelled<real>>

  /** The index never decreases, as it does not in a frame sorted by date. */
  predicate Ascending<T>(s: seq<Labelled<T>>) {
    forall i, j :: 0 <= i < j < |s| ==> NotAfter(s[i].date, s[j].date)
  }

  /** `data['NAV']`. */
  function NavColumn(frame: seq<Observation>): (s: Series)
    ensures |s| == |frame| && forall i :: 0 <= i < |frame| ==> s[i] == Labelled(frame[i].date, frame[i].nav)
  {
    seq(|frame|, i requires 0 <= i < |frame| => Labelled(frame[i].date, frame[i].nav))
  }

  /** `data['Nifty50 Change %']`, blanks included. */
  function ChangeSeries(frame: seq<Observation>): (s: seq<Labelled<Option<real>>>)
    ensures |s| == |frame| && forall i :: 0 <= i < |frame| ==> s[i] == Labelled(frame[i].date, frame[i].change)
  {
    seq(|frame|, i requires 0 <= i < |frame| => Labelled(frame[i].date, frame[i].change))
  }

  /** Every NAV that a later NAV is divided by is non-zero. */
  predicate NonZeroDivisors(frame: seq<Observation>) {
    forall i :: 0 <= i < |frame| - 1 ==> frame[i].nav != 0.0
  }

  /** The return from `before` to `now`: their difference as a fraction of `before`. */
  function RelativeChange(now: real, before: real): real
    requires before != 0.0
  {
    (now - before) / before
  }

  /** One step of `pct_change()`: the ratio of `now` to `before`, minus one, which is the relative change. */
  function RatioMinusOne(now: real, before: real): (r: real)
    requires before != 0.0
    ensures r == RelativeChange(now, before)
  {
    assert before / before == 1.0;
    assert (now - before) / before == now / before - before / before;
    now / before - 1.0
  }

  /**
   * `pct_change()`: each value divided by the one before it, minus one.
   * The first entry has nothing before it and is missing.
   */
  function PctChange(s: Series): (r: seq<Labelled<Option<real>>>)
    requires forall i :: 0 <= i < |s| - 1 ==> s[i].value != 0.0
    ensures |r| == |s|
    ensures forall i :: 0 <= i < |s| ==> r[i].date == s[i].date
    ensures |s| > 0 ==> r[0].value.None?
    ensures forall i :: 1 <= i < |s| ==> r[i].value == Some(RelativeChange(s[i].value, s[i - 1].value))
  {
    seq(|s|, i requires 0 <= i < |s| =>
      Labelled(s[i].date, if i == 0 then None else Some(RatioMinusOne(s[i].value, s[i - 1].value))))
  }

  /** `dropna()`: the present entries, with their dates, in their original order. */
  function DropNa(s: seq<Labelled<Option<real>>>): (r: Series)
    ensures |r| <= |s|
  {
    if s == [] then []
    else (if s[0].value.Some? then [Labelled(s[0].date, s[0].value.value)] else []) + DropNa(s[1..])
  }

  /** An entry survives `dropna()` exactly when it is present in the input with that date and value. */
  lemma {:induction false} DropNaMembership(s: seq<Labelled<Option<real>>>, e: Labelled<real>)
    ensures e in DropNa(s) <==> Labelled(e.date, Some(e.value)) in s
  {
    if s != [] {
      DropNaMembership(s[1..], e);
      assert s == [s[0]] + s[1..];
    }
  }

  /** Dropping missing entries commutes with concatenation: nothing is reordered. */
  lemma {:induction false} DropNaAppend(a: seq<Labelled<Option<real>>>, b: seq<Labelled<Option<real>>>)
    ensures DropNa(a + b) == DropNa(a) + DropNa(b)
  {
    if a == [] {
      assert a + b == b;
    } else {
      var head := if a[0].value.Some? then [Labelled(a[0].date, a[0].value.value)] else [];
      assert (a + b)[0] == a[0];
      assert (a + b)[1..] == a[1..] + b;
      DropNaAppend(a[1..], b);
      calc {
        DropNa(a + b);
        head + DropNa(a[1..] + b);
        head + (DropNa(a[1..]) + DropNa(b));
        (head + DropNa(a[1..])) + DropNa(b);
      }
    }
  }

  /** With no missing entry, nothing is dropped. */
  lemma {:induction false} DropNaAllPresent(s: seq<Labelled<Option<real>>>)
    requires forall i :: 0 <= i < |s| ==> s[i].value.Some?
    ensures |DropNa(s)| == |s|
    ensures forall i :: 0 <= i < |s| ==> DropNa(s)[i] == Labelled(s[i].date, s[i].value.value)
  {
    if s != [] {
      DropNaAllPresent(s[1..]);
    }
  }

  /** A subsequence of an ascending series is ascending. */
  lemma {:induction false} DropNaAscending(s: seq<Labelled<Option<real>>>)
    requires Ascending(s)
    ensures Ascending(DropNa(s))
  {
    if s != [] {
      DropNaAscending(s[1..]);
      var rest := DropNa(s[1..]);
      forall j | 0 <= j < |rest| ensures NotAfter(s[0].date, rest[j].date) {
        DropNaMembership(s[1..], rest[j]);
        var k :| 0 <= k < |s[1..]| && s[1..][k] == Labelled(rest[j].date, Some(rest[j].value));
        assert s[k + 1].date == rest[j].date;
      }
    }
  }

  /**
   * Line 54, `data['NAV'].pct_change().dropna()`: one entry fewer than the
   * frame; entry i - 1 is keyed by row i's date and is the relative change
   * of the NAV from row i - 1 to row i.
   */
  function PortfolioReturns(frame: seq<Observation>): (r: Series)
    requires NonZeroDivisors(frame)
    ensures |r| == if frame == [] then 0 else |frame| - 1
    ensures forall i :: 1 <= i < |frame| ==>
              r[i - 1] == Labelled(frame[i].date, RelativeChange(frame[i].nav, frame[i - 1].nav))
  {
    var navs := NavColumn(frame);
    assert forall i :: 0 <= i < |navs| - 1 ==> navs[i].value != 0.0;
    var changes := PctChange(navs);
    DropFirstMissing(changes);
    var r := DropNa(changes);
    assert forall i :: 1 <= i < |frame| ==>
             r[i - 1] == Labelled(frame[i].date, RelativeChange(frame[i].nav, frame[i - 1].nav)) by {
      forall i | 1 <= i < |frame|
        ensures r[i - 1] == Labelled(frame[i].date, RelativeChange(frame[i].nav, frame[i - 1].nav))
      {
        var now, before := navs[i].value, navs[i - 1].value;
        assert now == frame[i].nav && before == frame[i - 1].nav;
        assert changes[i].value == Some(RelativeChange(now, before));
        assert r[i - 1] == Labelled(changes[i].date, changes[i].value.value);
      }
    }
    r
  }

  /** A series whose first entry alone is missing loses exactly that entry. */
  lemma DropFirstMissing(s: seq<Labelled<Option<real>>>)
    requires |s| > 0 ==> s[0].value.None?
    requires forall i :: 1 <= i < |s| ==> s[i].value.Some?
    ensures |DropNa(s)| == if s == [] then 0 else |s| - 1
    ensures forall i :: 1 <= i < |s| ==> DropNa(s)[i - 1] == Labelled(s[i].date, s[i].value.value)
  {
    if s != [] {
      assert DropNa(s) == DropNa(s[1..]);
      DropNaAllPresent(s[1..]);
    }
  }

  /** Line 55, `data['Nifty50 Change %'].dropna()`: at most one entry per row. */
  function BenchmarkReturns(frame: seq<Observation>): (r: Series)
    ensures |r| <= |frame|
  {
    DropNa(ChangeSeries(frame))
  }

  /** An entry is in the benchmark series exactly when some row has that date and that present change. */
  lemma BenchmarkMembership(frame: seq<Observation>, e: Labelled<real>)
    ensures e in BenchmarkReturns(frame) <==>
            exists k :: 0 <= k < |frame| && frame[k].date == e.date && frame[k].change == Some(e.value)
  {
    var s := ChangeSeries(frame);
    DropNaMembership(s, e);
    if e in BenchmarkReturns(frame) {
      var k :| 0 <= k < |s| && s[k] == Labelled(e.date, Some(e.value));
      assert frame[k].date == e.date && frame[k].change == Some(e.value);
    }
    if exists k :: 0 <= k < |frame| && frame[k].date == e.date && frame[k].change == Some(e.value) {
      var k :| 0 <= k < |frame| && frame[k].date == e.date && frame[k].change == Some(e.value);
      assert s[k] == Labelled(e.date, Some(e.value));
    }
  }

  /** The benchmark series of a concatenation is the concatenation of the benchmark series: order is kept. */
  lemma BenchmarkAppend(a: seq<Observation>, b: seq<Observation>)
    ensures BenchmarkReturns(a + b) == BenchmarkReturns(a) + BenchmarkReturns(b)
  {
    assert ChangeSeries(a + b) == ChangeSeries(a) + ChangeSeries(b);
    DropNaAppend(ChangeSeries(a), ChangeSeries(b));
  }

  /** One row contributes its change, keyed by its date, exactly when the change is present. */
  lemma BenchmarkOfRow(o: Observation)
    ensures BenchmarkReturns([o]) == if o.change.Some? then [Labelled(o.date, o.change.value)] else []
  {
    assert ChangeSeries([o]) == [Labelled(o.date, o.change)];
    assert ChangeSeries([o])[1..] == [];
  }

  /** What `calculate_returns` hands on: the two return series. */
  datatype Returns = Returns(portfolio: Series, nifty50: Series)

  /**
   * `calculate_returns`. A frame sorted by date gives two series whose
   * indexes ascend, as label slicing in `filter_data_by_date` needs.
   */
  function CalculateReturns(frame: seq<Observation>): (r: Returns)
    requires NonZeroDivisors(frame)
    ensures SortedByDate(frame) ==> Ascending(r.portfolio) && Ascending(r.nifty50)
    ensures |r.portfolio| == if frame == [] then 0 else |frame| - 1
    ensures |r.nifty50| <= |frame|
  {
    ReturnsAscending(frame);
    Returns(PortfolioReturns(frame), BenchmarkReturns(frame))
  }

  /** A frame sorted by date gives return series whose dates ascend. */
  lemma ReturnsAscending(frame: seq<Observation>)
    requires NonZeroDivisors(frame)
    ensures SortedByDate(frame) ==> Ascending(PortfolioReturns(frame)) && Ascending(BenchmarkReturns(frame))
  {
    if SortedByDate(frame) {
      var portfolio := PortfolioReturns(frame);
      assert Ascending(ChangeSeries(frame));
      DropNaAscending(ChangeSeries(frame));
      forall i, j | 0 <= i < j < |portfolio| ensures NotAfter(portfolio[i].date, portfolio[j].date) {
        assert portfolio[i].date == frame[i + 1].date && portfolio[j].date == frame[j + 1].date;
      }
    }
  }
}
