/**
 * The HH:MM:SS rendering of formatDuration, over the whole number of
 * seconds that remains after its rounding step.
 */
module Clock {
  import opened Results
  import opened GoStrconv
  import opened GoInt

  datatype Hms = Hms(h: int, m: int, s: int)

  /**
   * The split of formatDuration: whole hours, then whole minutes of what
   * remains, then the seconds left over, each by Go's truncating division
   * of time.Duration values.
   */
  function SplitSeconds(d: int): (r: Hms)
    ensures r.h * 3600 + r.m * 60 + r.s == d
    ensures d >= 0 ==> r.h == d / 3600 && r.m == (d % 3600) / 60 && r.s == d % 60
    ensures d >= 0 ==> 0 <= r.m < 60 && 0 <= r.s < 60
    ensures d < 0 ==> r.h <= 0 && -60 < r.m <= 0 && -60 < r.s <= 0
  {
    var h := Quo(d, 3600);
    var rest := d - h * 3600;
    var m := Quo(rest, 60);
    SplitFacts(d, h, rest, m);
    Hms(h, m, rest - m * 60)
  }

  lemma SplitFacts(d: int, h: int, rest: int, m: int)
    requires h == Quo(d, 3600) && rest == d - h * 3600 && m == Quo(rest, 60)
    ensures d >= 0 ==> h == d / 3600 && rest == d % 3600 && m == (d % 3600) / 60 && rest - m * 60 == d % 60
    ensures d < 0 ==> h <= 0 && -3600 < rest <= 0 && -60 < m <= 0 && -60 < rest - m * 60 <= 0
  {
    if d >= 0 {
      assert rest == d % 3600;
      assert m == rest / 60;
      var s := rest - m * 60;
      assert 0 <= s < 60;
      assert d == (h * 60 + m) * 60 + s;
    } else {
      var e := -d;
      assert h == -(e / 3600);
      assert rest == -(e % 3600);
      assert m == -((e % 3600) / 60);
    }
  }

  /** fmt's "%02d": at least two characters, zero-padded after any sign. */
  function Pad2(n: int): string {
    if n < 0 then "-" + FormatNat(-n, 10)
    else if n < 10 then "0" + FormatNat(n, 10)
    else FormatNat(n, 10)
  }

  /** formatDuration, given the rounded duration in whole seconds. */
  function FormatDuration(d: int): string {
    var t := SplitSeconds(d);
    Pad2(t.h) + ":" + Pad2(t.m) + ":" + Pad2(t.s)
  }

  /** For a non-negative value, "%02d" gives at least two decimal digits that denote it; below 100, exactly two. */
  lemma Pad2Digits(n: int)
    requires n >= 0
    ensures var p := Pad2(n); |p| >= 2 && IsDigits(p, 10) && DigitsValue(p, 10) == n
    ensures n < 100 ==> |Pad2(n)| == 2
  {
    if n < 10 {
      LeadingZero(FormatNat(n, 10), 10);
    } else if n < 100 {
      var f := FormatNat(n, 10);
      DigitsBoundBelow(f, 10);
    }
  }

  /** A digit string with no leading zero is at least base^(length-1). */
  lemma {:induction false} DigitsBoundBelow(s: string, base: nat)
    requires 2 <= base && IsDigits(s, base) && |s| >= 1 && (|s| > 1 ==> s[0] != '0')
    ensures |s| > 1 ==> DigitsValue(s, base) >= Pow(base, |s| - 1)
  {
    if |s| > 1 {
      var p := s[..|s| - 1];
      assert IsDigits(p, base) && p[0] == s[0];
      if |p| > 1 {
        DigitsBoundBelow(p, base);
      } else {
        assert p == [] + [p[0]];
        assert DigitValue(p[0]).value >= 1;
        assert DigitsValue(p, base) == DigitValue(p[0]).value;
      }
      assert DigitsValue(p, base) >= Pow(base, |p| - 1);
      MulMonotone(Pow(base, |p| - 1), DigitsValue(p, base), base);
    }
  }

  lemma MulMonotone(a: nat, b: nat, c: nat)
    requires a <= b
    ensures a * c <= b * c
  {
  }

  /** Reads an "H…H:MM:SS" text back into seconds; None when it has another shape. */
  function ParseClock(t: string): Option<int> {
    if |t| < 8 || t[|t| - 3] != ':' || t[|t| - 6] != ':' then None
    else
      var h, m, s := t[..|t| - 6], t[|t| - 5..|t| - 3], t[|t| - 2..];
      if !IsDigits(h, 10) || !IsDigits(m, 10) || !IsDigits(s, 10) then None
      else Some(DigitsValue(h, 10) * 3600 + DigitsValue(m, 10) * 60 + DigitsValue(s, 10))
  }

  /**
   * For a non-negative duration the text is hours (two digits or more),
   * then two-digit minutes and seconds, and reading it back gives the
   * duration again.
   */
  lemma FormatDurationRoundTrip(d: int)
    requires d >= 0
    ensures ParseClock(FormatDuration(d)) == Some(d)
  {
    var r := SplitSeconds(d);
    Pad2Digits(r.h);
    Pad2Digits(r.m);
    Pad2Digits(r.s);
    var t := FormatDuration(d);
    var ph, pm, ps := Pad2(r.h), Pad2(r.m), Pad2(r.s);
    assert t == ph + ":" + pm + ":" + ps;
    assert t[..|t| - 6] == ph;
    assert t[|t| - 5..|t| - 3] == pm;
    assert t[|t| - 2..] == ps;
  }
}
