/**
 * Numeric text as the pipeline reads it: `pd.to_numeric` on the NAV column and
 * `str.rstrip('%').astype('float') / 100` on the benchmark change column.
 */
module Numbers {
  import opened Wrappers

  predicate IsDigit(c: char) {
    '0' <= c <= '9'
  }

  function DigitValue(c: char): (n: nat)
    requires IsDigit(c)
    ensures n <= 9
  {
    c as int - '0' as int
  }

  function DigitChar(n: nat): (c: char)
    requires n <= 9
    ensures IsDigit(c) && DigitValue(c) == n
  {
    ('0' as int + n) as char
  }

  predicate AllDigits(s: string) {
    forall i :: 0 <= i < |s| ==> IsDigit(s[i])
  }

  /** The value of a run of decimal digits, most significant first (0 for the empty run). */
  function DigitsValue(s: string): nat
    requires AllDigits(s)
  {
    if s == [] then 0 else 10 * DigitsValue(s[..|s| - 1]) + DigitValue(s[|s| - 1])
  }

  /** `n` divided by ten, `k` times: the value of `n` read `k` places after the point. */
  function ScaleDown(n: nat, k: nat): (x: real)
    ensures x >= 0.0
  {
    if k == 0 then n as real else ScaleDown(n, k - 1) / 10.0
  }

  /** The index of the first '.', or |s| when there is none. */
  function PointIndex(s: string): (k: nat)
    ensures k <= |s|
    ensures k < |s| ==> s[k] == '.'
    ensures forall i :: 0 <= i < k ==> s[i] != '.'
  {
    if s == [] || s[0] == '.' then 0 else 1 + PointIndex(s[1..])
  }

  /** The digits before and after the point, read as one non-negative number. */
  function DecimalValue(whole: string, fraction: string): real
    requires AllDigits(whole) && AllDigits(fraction)
  {
    DigitsValue(whole) as real + ScaleDown(DigitsValue(fraction), |fraction|)
  }

  /** The text before the first '.', and the text after it (empty when there is no point). */
  function SplitAtPoint(s: string): (string, string) {
    var p := PointIndex(s);
    if p < |s| then (s[..p], s[p + 1..]) else (s, [])
  }

  /**
   * An unsigned decimal: digits, optionally a point and more digits, with at
   * least one digit in all (`12`, `12.5`, `12.`, `.5`).
   */
  function ParseUnsigned(s: string): (r: Option<real>)
    ensures r.Some? ==> r.value >= 0.0
  {
    var (whole, fraction) := SplitAtPoint(s);
    if AllDigits(whole) && AllDigits(fraction) && |whole| + |fraction| > 0 then
      Some(DecimalValue(whole, fraction))
    else None
  }

  /**
   * A decimal number with an optional leading sign. Text holding anything
   * other than a sign, digits and one point is rejected.
   */
  function ParseNumber(s: string): (r: Option<real>)
    ensures r.Some? ==> s != []
    ensures r.Some? && r.value < 0.0 ==> s[0] == '-'
    ensures s == [] || (s[0] != '-' && s[0] != '+') ==> r == ParseUnsigned(s)
  {
    if |s| > 0 && (s[0] == '-' || s[0] == '+') then
      match ParseUnsigned(s[1..])
      case None => None
      case Some(x) => Some(if s[0] == '-' then -x else x)
    else ParseUnsigned(s)
  }

  /**
   * Accepted unsigned text is made of digits and at most one point, and holds
   * at least one digit: `1.234.567` is rejected.
   */
  lemma ParseUnsignedShape(s: string)
    ensures ParseUnsigned(s).Some? ==> forall i :: 0 <= i < |s| ==> IsDigit(s[i]) || s[i] == '.'
    ensures ParseUnsigned(s).Some? ==> exists i :: 0 <= i < |s| && IsDigit(s[i])
    ensures ParseUnsigned(s).Some? ==> forall i, j :: 0 <= i < j < |s| && s[i] == '.' ==> s[j] != '.'
  {
    var (whole, fraction) := SplitAtPoint(s);
    if ParseUnsigned(s).Some? {
      assert |whole| > 0 ==> s[0] == whole[0];
      assert |whole| == 0 ==> s[1] == fraction[0];
      assert forall i :: 0 <= i < |s| ==>
        (i < |whole| && s[i] == whole[i]) || (i == |whole| && s[i] == '.') || (i > |whole| && s[i] == fraction[i - |whole| - 1]);
      var p := PointIndex(s);
      forall i, j | 0 <= i < j < |s| && s[i] == '.' ensures s[j] != '.' {
        assert p < |s| && i == p;
        assert s[j] == fraction[j - p - 1];
      }
    }
  }

  /**
   * Accepted text is made of digits and at most one point, with at most a
   * sign in front, and holds at least one digit: a word, a blank, a lone sign
   * or `1.234.567` is rejected.
   */
  lemma ParseNumberShape(s: string)
    ensures ParseNumber(s).Some? ==>
              forall i :: 0 <= i < |s| ==> IsDigit(s[i]) || s[i] == '.' || (i == 0 && (s[i] == '-' || s[i] == '+'))
    ensures ParseNumber(s).Some? ==> exists i :: 0 <= i < |s| && IsDigit(s[i])
    ensures ParseNumber(s).Some? ==> forall i, j :: 0 <= i < j < |s| && s[i] == '.' ==> s[j] != '.'
  {
    if |s| > 0 && (s[0] == '-' || s[0] == '+') {
      ParseUnsignedShape(s[1..]);
      if ParseNumber(s).Some? {
        assert forall i :: 1 <= i < |s| ==> s[i] == s[1..][i - 1];
        var j :| 0 <= j < |s[1..]| && IsDigit(s[1..][j]);
        assert IsDigit(s[j + 1]);
        forall i, j | 0 <= i < j < |s| && s[i] == '.' ensures s[j] != '.' {
          assert s[1..][i - 1] == '.' && s[j] == s[1..][j - 1];
        }
      }
    } else {
      ParseUnsignedShape(s);
    }
  }

  /** `str.rstrip(c)`: every trailing `c` removed. */
  function RStrip(s: string, c: char): (r: string)
    ensures |r| <= |s|
    ensures r == [] || r[|r| - 1] != c
  {
    if s != [] && s[|s| - 1] == c then RStrip(s[..|s| - 1], c) else s
  }

  /**
   * What `rstrip` keeps is a prefix of the text that does not end in `c`,
   * and everything it removes is `c`.
   */
  lemma {:induction false} RStripTrailing(s: string, c: char)
    ensures |RStrip(s, c)| <= |s| && RStrip(s, c) == s[..|RStrip(s, c)|]
    ensures RStrip(s, c) == [] || RStrip(s, c)[|RStrip(s, c)| - 1] != c
    ensures forall i :: |RStrip(s, c)| <= i < |s| ==> s[i] == c
  {
    if s != [] && s[|s| - 1] == c {
      var t := s[..|s| - 1];
      RStripTrailing(t, c);
      var r := RStrip(t, c);
      assert r == t[..|r|] == s[..|r|];
      forall i | |r| <= i < |s| ensures s[i] == c {
        if i < |t| {
          assert s[i] == t[i];
        }
      }
    }
  }

  /** A benchmark change cell: trailing '%' signs stripped, the rest read as a number, divided by 100. */
  function ParsePercent(s: string): (r: Option<real>)
    ensures r.Some? <==> ParseNumber(RStrip(s, '%')).Some?
    ensures r.Some? ==> r.value * 100.0 == ParseNumber(RStrip(s, '%')).value
  {
    match ParseNumber(RStrip(s, '%'))
    case None => None
    case Some(x) => Some(x / 100.0)
  }

  function Repeat(c: char, n: nat): (r: string)
    ensures |r| == n && forall i :: 0 <= i < n ==> r[i] == c
  {
    if n == 0 then [] else Repeat(c, n - 1) + [c]
  }

  lemma {:induction false} PointIndexAfterDigits(a: string, b: string)
    requires AllDigits(a)
    ensures PointIndex(a + b) == |a| + PointIndex(b)
  {
    if a != [] {
      assert (a + b)[1..] == a[1..] + b;
      PointIndexAfterDigits(a[1..], b);
    } else {
      assert a + b == b;
    }
  }

  /** A run of digits holds no point. */
  lemma {:induction false} PointIndexOfDigits(s: string)
    requires AllDigits(s)
    ensures PointIndex(s) == |s|
  {
    if s != [] {
      PointIndexOfDigits(s[1..]);
    }
  }

  /** A run of digits with no point reads as the whole number it spells. */
  lemma ParseWhole(whole: string)
    requires AllDigits(whole) && |whole| > 0
    ensures ParseUnsigned(whole) == Some(DigitsValue(whole) as real)
  {
    PointIndexOfDigits(whole);
    assert SplitAtPoint(whole) == (whole, []);
    assert DecimalValue(whole, []) == DigitsValue(whole) as real;
  }

  /**
   * Digits, a point and more digits read as the whole part plus the
   * fraction scaled down by its number of digits (`12.05` is 12 + 5/100).
   */
  lemma ParseDecimal(whole: string, fraction: string)
    requires AllDigits(whole) && AllDigits(fraction) && |whole| + |fraction| > 0
    ensures ParseUnsigned(whole + "." + fraction) == Some(DecimalValue(whole, fraction))
  {
    var s := whole + "." + fraction;
    assert s == whole + ("." + fraction);
    PointIndexAfterDigits(whole, "." + fraction);
    assert s[..|whole|] == whole && s[|whole| + 1..] == fraction;
    assert SplitAtPoint(s) == (whole, fraction);
  }

  /** A leading '-' negates what the rest reads as; a leading '+' changes nothing. */
  lemma ParseSigned(t: string)
    ensures ParseNumber("-" + t) == if ParseUnsigned(t).Some? then Some(-ParseUnsigned(t).value) else None
    ensures ParseNumber("+" + t) == ParseUnsigned(t)
  {
    assert ("-" + t)[1..] == t;
    assert ("+" + t)[1..] == t;
  }

  lemma {:induction false} RStripRepeat(t: string, c: char, n: nat)
    ensures RStrip(t + Repeat(c, n), c) == RStrip(t, c)
  {
    if n > 0 {
      assert (t + Repeat(c, n))[..|t| + n - 1] == t + Repeat(c, n - 1);
      RStripRepeat(t, c, n - 1);
    } else {
      assert t + Repeat(c, 0) == t;
    }
  }

  /**
   * Any number of trailing '%' signs are ignored: a cell that is a number
   * `t` (not itself ending in '%') followed by '%' signs reads as that
   * number divided by 100, and fails exactly when `t` fails.
   */
  lemma ParsePercentStrips(t: string, n: nat)
    requires t == [] || t[|t| - 1] != '%'
    ensures ParsePercent(t + Repeat('%', n))
         == if ParseNumber(t).Some? then Some(ParseNumber(t).value / 100.0) else None
  {
    RStripRepeat(t, '%', n);
    assert RStrip(t, '%') == t;
  }

  /** Sample change cells: "1%" is 0.01 ... */
  lemma PercentExampleOne()
    ensures ParsePercent("1%") == Some(0.01)
  {
    assert "1" + Repeat('%', 1) == "1%";
    ParsePercentStrips("1", 1);
    ParseWhole("1");
  }

  /** ... "0.5%" is 0.005 ... */
  lemma PercentExampleHalf()
    ensures ParsePercent("0.5%") == Some(0.005)
  {
    assert "0.5" == "0" + "." + "5";
    assert "0.5" + Repeat('%', 1) == "0.5%";
    ParsePercentStrips("0.5", 1);
    ParseDecimal("0", "5");
    assert DecimalValue("0", "5") == 0.5;
  }

  /** ... and a lone "%" is a parse failure. */
  lemma PercentExampleBare()
    ensures ParsePercent("%") == None
  {
    assert "%" == [] + Repeat('%', 1);
    ParsePercentStrips([], 1);
  }

  /** A NAV cell holding a word is a parse failure. */
  lemma ParseNumberRejectsWord()
    ensures ParseNumber("abc") == None
  {
  }

  /** Dots used as thousands separators are rejected, as `to_numeric` and `float` reject them. */
  lemma ParseNumberRejectsDottedThousands()
    ensures ParseNumber("1.234.567") == None
  {
    ParseNumberShape("1.234.567");
    assert "1.234.567"[1] == '.' && "1.234.567"[5] == '.';
  }
}
