/**
 * `filter_data_by_date`: both return series are cut down to the span of
 * dates they have in common, by label slicing on their date indexes.
 */
module Align {
  import opened Wrappers
  import opened Dates
  import opened Returns

  /** `index.min()`: the earliest date of a non-empty series. */
  function MinDate<T>(s: seq<Labelled<T>>): (d: Date)
    requires |s| > 0
    ensures exists i :: 0 <= i < |s| && s[i].date == d
    ensures forall i :: 0 <= i < |s| ==> NotAfter(d, s[i].date)
  {
    if |s| == 1 then s[0].date
    else
      var rest := MinDate(s[1..]);
      assert forall i :: 1 <= i < |s| ==> s[i] == s[1..][i - 1];
      Earlier(s[0].date, rest)
  }

  /** `index.max()`: the latest date of a non-empty series. */
  function MaxDate<T>(s: seq<Labelled<T>>): (d: Date)
    requires |s| > 0
    ensures exists i :: 0 <= i < |s| && s[i].date == d
    ensures forall i :: 0 <= i < |s| ==> NotAfter(s[i].date, d)
  {
    if |s| == 1 then s[0].date
    else
      var rest := MaxDate(s[1..]);
      assert forall i :: 1 <= i < |s| ==> s[i] == s[1..][i - 1];
      Later(s[0].date, rest)
  }

  /** An ascending series starts at its earliest date and ends at its latest. */
  lemma AscendingBounds<T>(s: seq<Labelled<T>>)
    requires |s| > 0 && Ascending(s)
    ensures MinDate(s) == s[0].date && MaxDate(s) == s[|s| - 1].date
  {
  }

  /** The entries dated from `start` to `end`, both included, in their order. */
  function Window<T>(s: seq<Labelled<T>>, start: Date, end: Date): (r: seq<Labelled<T>>)
    ensures |r| <= |s|
  {
    if s == [] then []
    else
      (if NotAfter(start, s[0].date) && NotAfter(s[0].date, end) then [s[0]] else [])
      + Window(s[1..], start, end)
  }

  /** Windowing commutes with concatenation: no entry changes place. */
  lemma {:induction false} WindowAppend<T>(a: seq<Labelled<T>>, b: seq<Labelled<T>>, start: Date, end: Date)
    ensures Window(a + b, start, end) == Window(a, start, end) + Window(b, start, end)
  {
    if a == [] {
      assert a + b == b;
    } else {
      assert (a + b)[1..] == a[1..] + b;
      WindowAppend(a[1..], b, start, end);
    }
  }

  /** A window that covers every entry keeps the series as it is. */
  lemma {:induction false} WindowAll<T>(s: seq<Labelled<T>>, start: Date, end: Date)
    requires forall i :: 0 <= i < |s| ==> NotAfter(start, s[i].date) && NotAfter(s[i].date, end)
    ensures Window(s, start, end) == s
  {
    if s != [] {
      WindowAll(s[1..], start, end);
    }
  }

  /** A window that covers no entry is empty. */
  lemma {:induction false} WindowNone<T>(s: seq<Labelled<T>>, start: Date, end: Date)
    requires forall i :: 0 <= i < |s| ==> Before(s[i].date, start) || Before(end, s[i].date)
    ensures Window(s, start, end) == []
  {
    if s != [] {
      WindowNone(s[1..], start, end);
    }
  }

  /** `searchsorted(d, side='left')`: how many entries of an ascending series are before `d`. */
  function SearchLeft<T>(s: seq<Labelled<T>>, d: Date): (k: nat)
    requires Ascending(s)
    ensures k <= |s|
    ensures forall i :: 0 <= i < k ==> Before(s[i].date, d)
    ensures forall i :: k <= i < |s| ==> NotAfter(d, s[i].date)
  {
    if s == [] || !Before(s[0].date, d) then 0 else 1 + SearchLeft(s[1..], d)
  }

  /** `searchsorted(d, side='right')`: how many entries of an ascending series are not after `d`. */
  function SearchRight<T>(s: seq<Labelled<T>>, d: Date): (k: nat)
    requires Ascending(s)
    ensures k <= |s|
    ensures forall i :: 0 <= i < k ==> NotAfter(s[i].date, d)
    ensures forall i :: k <= i < |s| ==> Before(d, s[i].date)
  {
    if s == [] || Before(d, s[0].date) then 0 else 1 + SearchRight(s[1..], d)
  }

  /**
   * `s[start:end]` on an ascending date index. Each bound is located by
   * `searchsorted`: the start on its left side, the end on its right side.
   * `searchsorted` on datetimes orders `NaT` (`None`) after every date, so
   * a `NaT` start keeps nothing and a `NaT` end cuts nothing off. When the
   * two positions cross the slice is empty.
   */
  function SliceByLabel<T>(s: seq<Labelled<T>>, start: Option<Date>, end: Option<Date>): (r: seq<Labelled<T>>)
    requires Ascending(s)
    ensures |r| <= |s|
    ensures start.Some? && end.Some? ==> r == Window(s, start.value, end.value)
    ensures start.None? ==> r == []
    ensures start.Some? && end.None? && s != [] ==> r == Window(s, start.value, MaxDate(s))
  {
    var lo := if start.None? then |s| else SearchLeft(s, start.value);
    var hi := if end.None? then |s| else SearchRight(s, end.value);
    if lo <= hi then
      if start.Some? && end.Some? then
        SliceIsWindow(s, start.value, end.value, lo, hi);
        s[lo..hi]
      else if start.None? || s == [] then
        s[lo..hi]
      else
        SliceIsWindow(s, start.value, MaxDate(s), lo, hi);
        s[lo..hi]
    else if start.Some? && end.Some? then
      WindowNone(s, start.value, end.value);
      []
    else
      []
  }

  lemma SliceIsWindow<T>(s: seq<Labelled<T>>, start: Date, end: Date, lo: nat, hi: nat)
    requires lo <= hi <= |s|
    requires forall i :: 0 <= i < lo ==> Before(s[i].date, start)
    requires forall i :: lo <= i < |s| ==> NotAfter(start, s[i].date)
    requires forall i :: 0 <= i < hi ==> NotAfter(s[i].date, end)
    requires forall i :: hi <= i < |s| ==> Before(end, s[i].date)
    ensures Window(s, start, end) == s[lo..hi]
  {
    WindowOfRange(s, 0, lo, start, end);
    WindowOfRange(s, lo, hi, start, end);
    WindowOfRange(s, hi, |s|, start, end);
    WindowOfThree(s, lo, hi, start, end);
  }

  /** A window that keeps all of the middle stretch of a series and nothing on either side is that stretch. */
  lemma WindowOfThree<T>(s: seq<Labelled<T>>, lo: nat, hi: nat, start: Date, end: Date)
    requires lo <= hi <= |s|
    requires Window(s[0..lo], start, end) == []
    requires Window(s[lo..hi], start, end) == s[lo..hi]
    requires Window(s[hi..|s|], start, end) == []
    ensures Window(s, start, end) == s[lo..hi]
  {
    var before, inside, after := s[0..lo], s[lo..hi], s[hi..|s|];
    assert s == before + inside + after;
    WindowAppend(before, inside, start, end);
    WindowAppend(before + inside, after, start, end);
  }

  /** The window of a stretch of a series lying wholly inside it, or wholly outside it. */
  lemma WindowOfRange<T>(s: seq<Labelled<T>>, lo: nat, hi: nat, start: Date, end: Date)
    requires lo <= hi <= |s|
    ensures (forall i :: lo <= i < hi ==> NotAfter(start, s[i].date) && NotAfter(s[i].date, end))
              ==> Window(s[lo..hi], start, end) == s[lo..hi]
    ensures (forall i :: lo <= i < hi ==> Before(s[i].date, start) || Before(end, s[i].date))
              ==> Window(s[lo..hi], start, end) == []
  {
    var t := s[lo..hi];
    assert forall j :: 0 <= j < |t| ==> t[j] == s[lo + j];
    if forall i :: lo <= i < hi ==> NotAfter(start, s[i].date) && NotAfter(s[i].date, end) {
      WindowAll(t, start, end);
    }
    if forall i :: lo <= i < hi ==> Before(s[i].date, start) || Before(end, s[i].date) {
      WindowNone(t, start, end);
    }
  }

  /** The aligned series and the span they were cut to; a bound is `None` where pandas has `NaT`. */
  datatype Aligned = Aligned(portfolio: Series, nifty50: Series, start: Option<Date>, end: Option<Date>)

  /** `index.min()`: `NaT` for an empty index. */
  function IndexMin<T>(s: seq<Labelled<T>>): Option<Date> {
    if s == [] then None else Some(MinDate(s))
  }

  /** `index.max()`: `NaT` for an empty index. */
  function IndexMax<T>(s: seq<Labelled<T>>): Option<Date> {
    if s == [] then None else Some(MaxDate(s))
  }

  /** `b > a` on timestamps: false whenever either side is `NaT`. */
  predicate LaterStamp(b: Option<Date>, a: Option<Date>) {
    a.Some? && b.Some? && Before(a.value, b.value)
  }

  /**
   * Python's `max(a, b)`: `b` only when `b > a`, else `a`. A `NaT` first
   * argument is therefore kept, and a `NaT` second argument is passed over.
   */
  function MaxStamp(a: Option<Date>, b: Option<Date>): (r: Option<Date>)
    ensures a.None? ==> r.None?
    ensures a.Some? && b.None? ==> r == a
    ensures a.Some? && b.Some? ==> r.Some? && NotAfter(a.value, r.value) && NotAfter(b.value, r.value) && (r == a || r == b)
  {
    if LaterStamp(b, a) then b else a
  }

  /** Python's `min(a, b)`: `b` only when `b < a`, else `a`, with the same rule for `NaT`. */
  function MinStamp(a: Option<Date>, b: Option<Date>): (r: Option<Date>)
    ensures a.None? ==> r.None?
    ensures a.Some? && b.None? ==> r == a
    ensures a.Some? && b.Some? ==> r.Some? && NotAfter(r.value, a.value) && NotAfter(r.value, b.value) && (r == a || r == b)
  {
    if LaterStamp(a, b) then b else a
  }

  /**
   * `filter_data_by_date`. With both series non-empty, the span starts at
   * the later of the two earliest dates and ends at the earlier of the two
   * latest dates, and each series keeps, in order, exactly its entries
   * inside the span; a start after the end leaves both empty, with no
   * error. An empty benchmark leaves the portfolio whole over its own
   * span; an empty portfolio gives `NaT` bounds and two empty series.
   */
  function FilterDataByDate(portfolio: Series, nifty50: Series): (r: Aligned)
    requires Ascending(portfolio) && Ascending(nifty50)
    ensures portfolio != [] && nifty50 != [] ==>
              r.start == Some(Later(MinDate(portfolio), MinDate(nifty50)))
              && r.end == Some(Earlier(MaxDate(portfolio), MaxDate(nifty50)))
              && r.portfolio == Window(portfolio, r.start.value, r.end.value)
              && r.nifty50 == Window(nifty50, r.start.value, r.end.value)
    ensures portfolio != [] && nifty50 == [] ==>
              r == Aligned(portfolio, [], Some(MinDate(portfolio)), Some(MaxDate(portfolio)))
    ensures portfolio == [] ==> r == Aligned([], [], None, None)
  {
    var start := MaxStamp(IndexMin(portfolio), IndexMin(nifty50));
    var end := MinStamp(IndexMax(portfolio), IndexMax(nifty50));
    WindowOwnRange(portfolio);
    Aligned(SliceByLabel(portfolio, start, end), SliceByLabel(nifty50, start, end), start, end)
  }

  /** The two bounds are `NaT` together, exactly when the portfolio is empty, so slicing never sees one `NaT` bound alone. */
  lemma BoundsNaTTogether(portfolio: Series, nifty50: Series)
    requires Ascending(portfolio) && Ascending(nifty50)
    ensures FilterDataByDate(portfolio, nifty50).start.None? <==> portfolio == []
    ensures FilterDataByDate(portfolio, nifty50).end.None? <==> portfolio == []
  {
  }

  /** A series' window over its own range is the whole series. */
  lemma WindowOwnRange<T>(s: seq<Labelled<T>>)
    ensures s != [] ==> Window(s, MinDate(s), MaxDate(s)) == s
  {
    if s != [] {
      WindowAll(s, MinDate(s), MaxDate(s));
    }
  }

  /** An entry is in a window exactly when it is in the series and dated inside the window. */
  lemma {:induction false} WindowMembership<T>(s: seq<Labelled<T>>, start: Date, end: Date, e: Labelled<T>)
    ensures e in Window(s, start, end) <==> e in s && NotAfter(start, e.date) && NotAfter(e.date, end)
  {
    if s != [] {
      WindowMembership(s[1..], start, end, e);
      assert e in s <==> e == s[0] || e in s[1..];
    }
  }

  /** Every entry lies within its own series' range. */
  lemma WithinOwnRange<T>(s: seq<Labelled<T>>, e: Labelled<T>)
    requires e in s
    ensures NotAfter(MinDate(s), e.date) && NotAfter(e.date, MaxDate(s))
  {
    var i :| 0 <= i < |s| && s[i] == e;
  }

  /**
   * An entry of one series survives a window from the later of the two
   * earliest dates to the earlier of the two latest dates exactly when it
   * lies within the other series' range.
   */
  lemma WindowOfOverlap<T>(s: seq<Labelled<T>>, other: seq<Labelled<T>>, start: Date, end: Date, e: Labelled<T>)
    requires s != [] && other != []
    requires start == Later(MinDate(s), MinDate(other)) || start == Later(MinDate(other), MinDate(s))
    requires end == Earlier(MaxDate(s), MaxDate(other)) || end == Earlier(MaxDate(other), MaxDate(s))
    ensures e in Window(s, start, end) <==> e in s && NotAfter(MinDate(other), e.date) && NotAfter(e.date, MaxDate(other))
  {
    WindowMembership(s, start, end, e);
    if e in s {
      WithinOwnRange(s, e);
    }
  }

  /**
   * What survives alignment: an entry of either output is an entry of its
   * own input whose date lies within the other series' range; every such
   * entry survives.
   */
  lemma AlignedIsOverlap(portfolio: Series, nifty50: Series, e: Labelled<real>)
    requires Ascending(portfolio) && Ascending(nifty50)
    requires portfolio != [] && nifty50 != []
    ensures e in FilterDataByDate(portfolio, nifty50).portfolio <==>
              e in portfolio && NotAfter(MinDate(nifty50), e.date) && NotAfter(e.date, MaxDate(nifty50))
    ensures e in FilterDataByDate(portfolio, nifty50).nifty50 <==>
              e in nifty50 && NotAfter(MinDate(portfolio), e.date) && NotAfter(e.date, MaxDate(portfolio))
  {
    var a := FilterDataByDate(portfolio, nifty50);
    WindowOfOverlap(portfolio, nifty50, a.start.value, a.end.value, e);
    WindowOfOverlap(nifty50, portfolio, a.start.value, a.end.value, e);
  }

  /** Aligning a series with itself changes nothing, the empty series included. */
  lemma AlignIdentical(s: Series)
    requires Ascending(s)
    ensures FilterDataByDate(s, s)
              == if s == [] then Aligned([], [], None, None)
                 else Aligned(s, s, Some(s[0].date), Some(s[|s| - 1].date))
  {
    if s != [] {
      AscendingBounds(s);
      WindowAll(s, s[0].date, s[|s| - 1].date);
    }
  }

  /**
   * When the span's start comes after its end, which is when the two date
   * ranges do not meet (either one ending before the other starts), both
   * series come back empty, without an error.
   */
  lemma AlignNoOverlap(portfolio: Series, nifty50: Series)
    requires Ascending(portfolio) && Ascending(nifty50)
    requires portfolio != [] && nifty50 != []
    requires Before(Earlier(MaxDate(portfolio), MaxDate(nifty50)), Later(MinDate(portfolio), MinDate(nifty50)))
    ensures FilterDataByDate(portfolio, nifty50).portfolio == []
    ensures FilterDataByDate(portfolio, nifty50).nifty50 == []
  {
    var a := FilterDataByDate(portfolio, nifty50);
    WindowNone(portfolio, a.start.value, a.end.value);
    WindowNone(nifty50, a.start.value, a.end.value);
  }
}
