/**
 * Calendar dates as the pipeline uses them: parsed from the spreadsheet's
 * `%d-%b-%y` text (for example `01-Jan-24`), compared chronologically, and
 * printed back with the same format.
 */
module Dates {
  import opened Wrappers
  import opened Numbers

  /** A naive calendar date (no time of day, no time zone). */
  datatype Date = Date(year: int, month: int, day: int)

  /** Strict chronological order: lexicographic on (year, month, day). */
  predicate Before(a: Date, b: Date) {
    a.year < b.year
    || (a.year == b.year && (a.month < b.month || (a.month == b.month && a.day < b.day)))
  }

  /** `a <= b` on timestamps. */
  predicate NotAfter(a: Date, b: Date) {
    !Before(b, a)
  }

  /** Python's `max(a, b)`: the first argument unless the second is later. */
  function Later(a: Date, b: Date): (r: Date)
    ensures NotAfter(a, r) && NotAfter(b, r)
    ensures r == a || r == b
  {
    if Before(a, b) then b else a
  }

  /** Python's `min(a, b)`: the first argument unless the second is earlier. */
  function Earlier(a: Date, b: Date): (r: Date)
    ensures NotAfter(r, a) && NotAfter(r, b)
    ensures r == a || r == b
  {
    if Before(b, a) then b else a
  }

  /** Gregorian leap-year rule. */
  predicate IsLeapYear(y: int) {
    y % 4 == 0 && (y % 100 != 0 || y % 400 == 0)
  }

  function DaysInMonth(y: int, m: int): (n: int)
    requires 1 <= m <= 12
    ensures 28 <= n <= 31
    ensures n == 29 <==> m == 2 && IsLeapYear(y)
  {
    if m == 2 then (if IsLeapYear(y) then 29 else 28)
    else if m == 4 || m == 6 || m == 9 || m == 11 then 30
    else 31
  }

  /** A day that exists on the Gregorian calendar. */
  predicate ValidDate(d: Date) {
    1 <= d.month <= 12 && 1 <= d.day <= DaysInMonth(d.year, d.month)
  }

  /** The English month abbreviations that `%b` prints. */
  const MonthAbbreviations: seq<string> :=
    ["Jan", "Feb", "Mar", "Apr", "May", "Jun", "Jul", "Aug", "Sep", "Oct", "Nov", "Dec"]

  function LowerChar(c: char): char {
    if 'A' <= c <= 'Z' then (c as int + 32) as char else c
  }

  /** Equal letter for letter once ASCII capitals are folded to lower case. */
  predicate SameIgnoringCase(t: string, a: string) {
    |t| == |a| && forall i :: 0 <= i < |t| ==> LowerChar(t[i]) == LowerChar(a[i])
  }

  /** The first month from `m` on whose abbreviation matches `t`. */
  function FindMonth(t: string, m: int): (r: Option<int>)
    requires 1 <= m <= 13
    decreases 13 - m
    ensures r.Some? ==> m <= r.value <= 12
  {
    if m == 13 then None
    else if SameIgnoringCase(t, MonthAbbreviations[m - 1]) then Some(m)
    else FindMonth(t, m + 1)
  }

  lemma {:induction false} FindMonthMatches(t: string, m: int)
    requires 1 <= m <= 13
    decreases 13 - m
    ensures FindMonth(t, m).Some? ==> SameIgnoringCase(t, MonthAbbreviations[FindMonth(t, m).value - 1])
    ensures FindMonth(t, m).None? ==> forall i :: m - 1 <= i < 12 ==> !SameIgnoringCase(t, MonthAbbreviations[i])
  {
    if m < 13 && !SameIgnoringCase(t, MonthAbbreviations[m - 1]) {
      FindMonthMatches(t, m + 1);
    }
  }

  /**
   * The `%b` field: one of the twelve abbreviations, in any letter case
   * (the pattern is matched case-insensitively).
   */
  function MonthNumber(t: string): (m: Option<int>)
    ensures m.Some? ==> 1 <= m.value <= 12
  {
    FindMonth(t, 1)
  }

  /** A month is found exactly when the text matches an abbreviation ignoring case, and it is that month. */
  lemma MonthNumberMatches(t: string)
    ensures MonthNumber(t).Some? ==> SameIgnoringCase(t, MonthAbbreviations[MonthNumber(t).value - 1])
    ensures MonthNumber(t).None? ==> forall i :: 0 <= i < 12 ==> !SameIgnoringCase(t, MonthAbbreviations[i])
  {
    FindMonthMatches(t, 1);
  }

  /**
   * The `%d` field: `3[01]`, `[12]` and a digit, `0[1-9]`, `[1-9]`, or a
   * space and `[1-9]`.
   */
  function ParseDay(t: string): (r: Option<int>)
    ensures r.Some? ==> 1 <= r.value <= 31
  {
    if |t| == 1 && '1' <= t[0] <= '9' then Some(DigitValue(t[0]))
    else if |t| == 2 && (t[0] == ' ' || t[0] == '0') && '1' <= t[1] <= '9' then Some(DigitValue(t[1]))
    else if |t| == 2 && '1' <= t[0] <= '2' && IsDigit(t[1]) then Some(10 * DigitValue(t[0]) + DigitValue(t[1]))
    else if |t| == 2 && t[0] == '3' && '0' <= t[1] <= '1' then Some(30 + DigitValue(t[1]))
    else None
  }

  /**
   * An accepted `%d` field names the day its digits spell, once a leading
   * space is dropped: `7`, ` 7` and `07` are all day 7.
   */
  lemma ParseDayValue(t: string)
    ensures ParseDay(t).Some? ==>
              var u := if t[0] == ' ' then t[1..] else t;
              AllDigits(u) && ParseDay(t).value == DigitsValue(u)
  {
    if ParseDay(t).Some? {
      if |t| == 1 {
        assert t[..0] == [];
      } else if t[0] == ' ' {
        assert t[1..][..0] == [];
      } else {
        assert t[..|t| - 1] == t[..1];
        assert t[..1][..0] == [];
        assert DigitsValue(t[..1]) == DigitValue(t[0]);
        assert DigitsValue(t) == 10 * DigitValue(t[0]) + DigitValue(t[1]);
      }
    }
  }

  /** The `%y` field: exactly two digits; 00-68 are 2000-2068, 69-99 are 1969-1999. */
  function ParseYear(t: string): (r: Option<int>)
    ensures r.Some? ==> 1969 <= r.value <= 2068
  {
    if |t| == 2 && IsDigit(t[0]) && IsDigit(t[1]) then
      var yy := 10 * DigitValue(t[0]) + DigitValue(t[1]);
      Some(if yy <= 68 then 2000 + yy else 1900 + yy)
    else None
  }

  /**
   * `pd.to_datetime(s, format='%d-%b-%y')` on one cell: the whole text must
   * match day, '-', month abbreviation, '-', two-digit year, and the day must
   * exist in that month; anything else is a parse failure.
   */
  function ParseDate(s: string): (r: Option<Date>)
    ensures r.Some? ==> ValidDate(r.value) && 1969 <= r.value.year <= 2068
  {
    if |s| < 8 || |s| > 9 then None
    else
      var k := |s| - 7;
      if s[k] != '-' || s[k + 4] != '-' then None
      else
        match (ParseDay(s[..k]), MonthNumber(s[k + 1..k + 4]), ParseYear(s[k + 5..]))
        case (Some(d), Some(m), Some(y)) =>
          if d <= DaysInMonth(y, m) then Some(Date(y, m, d)) else None
        case _ => None
  }

  /**
   * Every accepted cell is eight or nine characters with its dashes in place,
   * and names a date that exists, in the two-digit year window.
   */
  lemma ParseDateSound(s: string)
    ensures ParseDate(s).Some? ==> ValidDate(ParseDate(s).value) && 1969 <= ParseDate(s).value.year <= 2068
    ensures ParseDate(s).Some? ==> (|s| == 8 || |s| == 9) && s[|s| - 7] == '-' && s[|s| - 3] == '-'
  {
  }

  function TwoDigits(n: int): (s: string)
    requires 0 <= n < 100
    ensures |s| == 2 && IsDigit(s[0]) && IsDigit(s[1])
    ensures 10 * DigitValue(s[0]) + DigitValue(s[1]) == n
  {
    [DigitChar(n / 10), DigitChar(n % 10)]
  }

  /** `strftime('%d-%b-%y')`: zero-padded day, month abbreviation, last two digits of the year. */
  function FormatDate(d: Date): (s: string)
    requires ValidDate(d)
    ensures |s| == 9
  {
    TwoDigits(d.day) + "-" + MonthAbbreviations[d.month - 1] + "-" + TwoDigits(d.year % 100)
  }

  lemma AbbreviationsDistinct(i: int, j: int)
    requires 0 <= i < 12 && 0 <= j < 12 && i != j
    ensures !SameIgnoringCase(MonthAbbreviations[i], MonthAbbreviations[j])
  {
    var a, b := MonthAbbreviations[i], MonthAbbreviations[j];
    assert LowerChar(a[0]) != LowerChar(b[0]) || LowerChar(a[1]) != LowerChar(b[1]) || LowerChar(a[2]) != LowerChar(b[2]);
  }

  /** No two month abbreviations are equal ignoring case, so each one names its own month. */
  lemma MonthNumberOfAbbreviation(m: int)
    requires 1 <= m <= 12
    ensures MonthNumber(MonthAbbreviations[m - 1]) == Some(m)
  {
    var a := MonthAbbreviations[m - 1];
    assert SameIgnoringCase(a, a);
    MonthNumberMatches(a);
    var r := MonthNumber(a);
    assert r.Some?;
    if r.value != m {
      AbbreviationsDistinct(r.value - 1, m - 1);
    }
  }

  /** Printing a date in the spreadsheet's format and parsing it back gives the same date. */
  lemma {:induction false} ParseFormatRoundTrip(d: Date)
    requires ValidDate(d) && 1969 <= d.year <= 2068
    ensures ParseDate(FormatDate(d)) == Some(d)
  {
    var s := FormatDate(d);
    assert s[..2] == TwoDigits(d.day);
    assert s[3..6] == MonthAbbreviations[d.month - 1];
    assert s[7..] == TwoDigits(d.year % 100);
    MonthNumberOfAbbreviation(d.month);
    assert ParseDay(s[..2]) == Some(d.day);
    assert ParseYear(s[7..]) == Some(d.year);
  }

  /** A sample date, and its lower-case spelling. */
  lemma ParseDateExample()
    ensures ParseDate("01-Jan-24") == Some(Date(2024, 1, 1))
    ensures ParseDate("1-jan-24") == Some(Date(2024, 1, 1))
  {
    assert FormatDate(Date(2024, 1, 1)) == "01-Jan-24";
    ParseFormatRoundTrip(Date(2024, 1, 1));
    assert SameIgnoringCase("jan", MonthAbbreviations[0]);
    assert "1-jan-24"[2..5] == "jan";
  }

  /** A day that does not exist in its month is a parse failure, not a roll-over. */
  lemma ParseDateRejectsFeb29OfCommonYear()
    ensures ParseDate("29-Feb-23") == None
  {
    MonthNumberOfAbbreviation(2);
    assert "29-Feb-23"[3..6] == MonthAbbreviations[1];
  }
}
