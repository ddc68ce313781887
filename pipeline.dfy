/**
 * The returns and the alignment taken together, as the dashboard applies
 * them to a preprocessed frame.
 */
module Pipeline {
  import opened Wrappers
  import opened Dates
  import opened Preprocess
  import opened Returns
  import opened Align

  /** Dates strictly increase down the frame. */
  predicate StrictlyAscending(frame: seq<Observation>) {
    forall i, j :: 0 <= i < j < |frame| ==> Before(frame[i].date, frame[j].date)
  }

  /** Every row carries a benchmark change. */
  predicate ChangesPresent(frame: seq<Observation>) {
    forall i :: 0 <= i < |frame| ==> frame[i].change.Some?
  }

  /** The date index of a series. */
  function IndexOf<T>(s: seq<Labelled<T>>): (d: seq<Date>)
    ensures |d| == |s| && forall i :: 0 <= i < |s| ==> d[i] == s[i].date
  {
    seq(|s|, i requires 0 <= i < |s| => s[i].date)
  }

  lemma StrictlyAscendingSorted(frame: seq<Observation>)
    requires StrictlyAscending(frame)
    ensures SortedByDate(frame)
  {
    forall i, j | 0 <= i < j < |frame| ensures NotAfter(frame[i].date, frame[j].date) {
      assert Before(frame[i].date, frame[j].date);
    }
  }

  /** The span of two such series is that of the shorter one. */
  lemma ShiftedSpan(p: Series, b: Series)
    requires Ascending(p) && Ascending(b) && |p| >= 1 && |b| == |p| + 1
    requires forall i :: 0 <= i < |p| ==> b[i + 1].date == p[i].date
    requires Before(b[0].date, b[1].date)
    ensures Later(MinDate(p), MinDate(b)) == p[0].date
    ensures Earlier(MaxDate(p), MaxDate(b)) == p[|p| - 1].date
  {
    AscendingBounds(p);
    AscendingBounds(b);
  }

  /** Within that span the shorter series is whole and the longer one loses its first entry. */
  lemma ShiftedWindows(p: Series, b: Series)
    requires |p| >= 1 && |b| == |p| + 1
    requires forall i :: 0 <= i < |p| ==> b[i + 1].date == p[i].date
    requires Before(b[0].date, b[1].date)
    requires Ascending(p)
    ensures Window(p, p[0].date, p[|p| - 1].date) == p
    ensures Window(b, p[0].date, p[|p| - 1].date) == b[1..]
  {
    var start, end := p[0].date, p[|p| - 1].date;
    WindowAll(p, start, end);
    assert Window(b, start, end) == Window(b[1..], start, end) by {
      assert Before(b[0].date, start);
    }
    forall i | 0 <= i < |b[1..]| ensures NotAfter(start, b[1..][i].date) && NotAfter(b[1..][i].date, end) {
      assert b[1..][i].date == p[i].date;
    }
    WindowAll(b[1..], start, end);
  }

  /**
   * Aligning a series with one that has a single extra, earlier entry in
   * front and the same dates otherwise: the first keeps everything, the
   * second loses its extra entry.
   */
  lemma AlignShifted(p: Series, b: Series)
    requires Ascending(p) && Ascending(b) && |p| >= 1 && |b| == |p| + 1
    requires forall i :: 0 <= i < |p| ==> b[i + 1].date == p[i].date
    requires Before(b[0].date, b[1].date)
    ensures FilterDataByDate(p, b) == Aligned(p, b[1..], Some(p[0].date), Some(p[|p| - 1].date))
  {
    ShiftedSpan(p, b);
    ShiftedWindows(p, b);
  }

  lemma SameIndex(s: Series, t: Series)
    requires |s| == |t| && forall i :: 0 <= i < |s| ==> s[i].date == t[i].date
    ensures IndexOf(s) == IndexOf(t)
  {
  }

  /** With a change on every row, the benchmark series is the change column, row for row. */
  lemma BenchmarkAllPresent(frame: seq<Observation>)
    requires ChangesPresent(frame)
    ensures |BenchmarkReturns(frame)| == |frame|
    ensures forall i :: 0 <= i < |frame| ==> BenchmarkReturns(frame)[i] == Labelled(frame[i].date, frame[i].change.value)
  {
    DropNaAllPresent(ChangeSeries(frame));
  }

  /**
   * A frame with distinct ascending dates and a change on every row:
   * the portfolio series starts one row later than the benchmark series,
   * so alignment starts both at the second row's date, ends them at the
   * last row's date, leaves the portfolio series whole, drops the first
   * benchmark entry, and leaves the two with the same dates.
   */
  lemma AlignedDatesAgree(frame: seq<Observation>)
    requires |frame| >= 2 && NonZeroDivisors(frame)
    requires StrictlyAscending(frame) && ChangesPresent(frame)
    ensures SortedByDate(frame)
    ensures var r := CalculateReturns(frame);
            var a := FilterDataByDate(r.portfolio, r.nifty50);
            a.start == Some(frame[1].date) && a.end == Some(frame[|frame| - 1].date)
            && a.portfolio == r.portfolio
            && a.nifty50 == r.nifty50[1..]
            && IndexOf(a.portfolio) == IndexOf(a.nifty50)
  {
    StrictlyAscendingSorted(frame);
    ReturnsShifted(frame);
    var p, b := PortfolioReturns(frame), BenchmarkReturns(frame);
    assert CalculateReturns(frame) == Returns(p, b);
    AlignShifted(p, b);
    assert |b[1..]| == |p|;
    forall i | 0 <= i < |p| ensures p[i].date == b[1..][i].date {
      assert b[1..][i] == b[i + 1];
    }
    SameIndex(p, b[1..]);
  }

  /** The return series of such a frame are shifted by one entry against each other. */
  lemma ReturnsShifted(frame: seq<Observation>)
    requires |frame| >= 2 && NonZeroDivisors(frame)
    requires StrictlyAscending(frame) && ChangesPresent(frame) && SortedByDate(frame)
    ensures var p, b := PortfolioReturns(frame), BenchmarkReturns(frame);
            Ascending(p) && Ascending(b) && |p| >= 1 && |b| == |p| + 1
            && (forall i :: 0 <= i < |p| ==> b[i + 1].date == p[i].date)
            && Before(b[0].date, b[1].date)
            && p[0].date == frame[1].date && p[|p| - 1].date == frame[|frame| - 1].date
  {
    BenchmarkAllPresent(frame);
    var p, b := PortfolioReturns(frame), BenchmarkReturns(frame);
    IndexShift(frame, p, b);
    ReturnsAscending(frame);
  }

  /** Date bookkeeping for a series keyed by every row but the first and one keyed by every row. */
  lemma IndexShift(frame: seq<Observation>, p: Series, b: Series)
    requires |frame| >= 2 && |p| == |frame| - 1 && |b| == |frame|
    requires forall i :: 1 <= i < |frame| ==> p[i - 1].date == frame[i].date
    requires forall i :: 0 <= i < |frame| ==> b[i].date == frame[i].date
    ensures forall i :: 0 <= i < |p| ==> b[i + 1].date == p[i].date
    ensures p[0].date == frame[1].date && p[|p| - 1].date == frame[|frame| - 1].date
    ensures b[0].date == frame[0].date && b[1].date == frame[1].date
  {
    forall i | 0 <= i < |p| ensures b[i + 1].date == p[i].date {
      var k := i + 1;
      assert p[k - 1].date == frame[k].date;
    }
    assert p[|frame| - 1 - 1].date == frame[|frame| - 1].date;
  }

  /** Two days: NAV 100 then 102, benchmark changes 1% then 0.5%. */
  function TwoDayFrame(): (frame: seq<Observation>)
    ensures |frame| == 2
  {
    [Observation(Date(2024, 1, 1), 100.0, Some(0.01), Some(1.01)),
     Observation(Date(2024, 1, 2), 102.0, Some(0.005), Some(1.01 * 1.005))]
  }

  /** The portfolio gains 2% on the second day, keyed by that day. */
  lemma TwoDayPortfolio()
    ensures NonZeroDivisors(TwoDayFrame())
    ensures PortfolioReturns(TwoDayFrame()) == [Labelled(Date(2024, 1, 2), 0.02)]
  {
    var frame := TwoDayFrame();
    var p := PortfolioReturns(frame);
    assert p[0] == Labelled(Date(2024, 1, 2), RelativeChange(102.0, 100.0));
  }

  /** The benchmark series holds both days' changes, in order. */
  lemma TwoDayBenchmark()
    ensures BenchmarkReturns(TwoDayFrame())
              == [Labelled(Date(2024, 1, 1), 0.01), Labelled(Date(2024, 1, 2), 0.005)]
  {
    BenchmarkAllPresent(TwoDayFrame());
  }

  /** The portfolio gains 2% on the second day; the benchmark series holds both days. */
  lemma TwoDayReturns()
    ensures NonZeroDivisors(TwoDayFrame())
    ensures CalculateReturns(TwoDayFrame())
              == Returns([Labelled(Date(2024, 1, 2), 0.02)],
                         [Labelled(Date(2024, 1, 1), 0.01), Labelled(Date(2024, 1, 2), 0.005)])
  {
    TwoDayPortfolio();
    TwoDayBenchmark();
  }

  /**
   * Both aligned series hold the single second day, with returns 0.02
   * and 0.005, and the span is that day alone.
   */
  lemma TwoDayExample()
    ensures NonZeroDivisors(TwoDayFrame())
    ensures var r := CalculateReturns(TwoDayFrame());
            Ascending(r.portfolio) && Ascending(r.nifty50)
            && FilterDataByDate(r.portfolio, r.nifty50)
                 == Aligned([Labelled(Date(2024, 1, 2), 0.02)], [Labelled(Date(2024, 1, 2), 0.005)],
                            Some(Date(2024, 1, 2)), Some(Date(2024, 1, 2)))
  {
    TwoDayReturns();
    AlignedDatesAgree(TwoDayFrame());
    var r := CalculateReturns(TwoDayFrame());
    assert r.nifty50[1..] == [Labelled(Date(2024, 1, 2), 0.005)];
  }
}
