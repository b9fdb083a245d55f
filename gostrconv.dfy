/**
 * strconv.ParseInt and its inverse, strconv.FormatInt, over the digit
 * alphabet Go uses for bases 2 to 36.  Go's distinction between a syntax
 * error and a range error is folded into `None`: no caller in the core
 * looks at which of the two it got.
 */
module GoStrconv {
  import opened Results

  /** The value of a digit character: '0'..'9' are 0..9, letters of either case 10..35. */
  function DigitValue(c: char): (r: Option<nat>)
    ensures r.Some? ==> r.value < 36
  {
    if '0' <= c <= '9' then Some(c as int - '0' as int)
    else if 'a' <= c <= 'z' then Some(c as int - 'a' as int + 10)
    else if 'A' <= c <= 'Z' then Some(c as int - 'A' as int + 10)
    else None
  }

  predicate IsDigit(c: char, base: nat) {
    DigitValue(c).Some? && DigitValue(c).value < base
  }

  predicate IsDigits(s: string, base: nat) {
    forall i :: 0 <= i < |s| ==> IsDigit(s[i], base)
  }

  function Pow(base: nat, n: nat): (r: nat)
    ensures base >= 1 ==> r >= 1
  {
    if n == 0 then 1 else base * Pow(base, n - 1)
  }

  /** The number a string of digits denotes, most significant digit first. */
  function DigitsValue(s: string, base: nat): (r: nat)
    requires IsDigits(s, base)
  {
    if s == [] then 0
    else
      assert IsDigits(s[..|s| - 1], base);
      DigitsValue(s[..|s| - 1], base) * base + DigitValue(s[|s| - 1]).value
  }

  /**
   * The magnitude bound of a signed `bitSize`-bit integer, 2^(bitSize-1),
   * written out for the two sizes the core parses with.
   */
  function Cutoff(bitSize: nat): int
    requires 1 <= bitSize
  {
    if bitSize == 32 then 0x8000_0000
    else if bitSize == 64 then 0x8000_0000_0000_0000
    else Pow(2, bitSize - 1)
  }

  /** The written-out bounds are the powers of two they stand for. */
  lemma CutoffIsPower(bitSize: nat)
    requires 1 <= bitSize
    ensures Cutoff(bitSize) == Pow(2, bitSize - 1)
  {
    if bitSize == 32 || bitSize == 64 {
      assert Pow(2, 8) == 0x100;
      assert Pow(2, 16) == 0x1_0000;
      assert Pow(2, 24) == 0x100_0000;
      assert Pow(2, 31) == 0x8000_0000;
      assert Pow(2, 39) == 0x80_0000_0000;
      assert Pow(2, 47) == 0x8000_0000_0000;
      assert Pow(2, 55) == 0x80_0000_0000_0000;
      assert Pow(2, 63) == 0x8000_0000_0000_0000;
    }
  }

  /**
   * strconv.ParseInt(s, base, bitSize): an optional '+' or '-', then at least
   * one digit of `base`, and the value must fit a signed `bitSize`-bit integer.
   */
  function ParseInt(s: string, base: nat, bitSize: nat): (r: Option<int>)
    requires 2 <= base <= 36 && 1 <= bitSize <= 64
    ensures r.Some? ==> -Cutoff(bitSize) <= r.value < Cutoff(bitSize)
  {
    var neg := |s| > 0 && s[0] == '-';
    var digits := if |s| > 0 && (s[0] == '+' || s[0] == '-') then s[1..] else s;
    if digits == [] || !IsDigits(digits, base) then None
    else
      var u: int := DigitsValue(digits, base);
      var cutoff := Cutoff(bitSize);
      if !neg && u >= cutoff then None
      else if neg && u > cutoff then None
      else Some(if neg then -u else u)
  }

  function DigitChar(d: nat): char
    requires d < 36
  {
    if d < 10 then ('0' as int + d) as char else ('a' as int + d - 10) as char
  }

  lemma DigitCharValue(d: nat, base: nat)
    requires d < base <= 36
    ensures IsDigit(DigitChar(d), base) && DigitValue(DigitChar(d)).value == d
  {
  }

  /** Appending one digit multiplies the value by the base and adds the digit. */
  lemma AppendDigit(s: string, c: char, base: nat)
    requires IsDigits(s, base) && IsDigit(c, base)
    ensures IsDigits(s + [c], base)
    ensures DigitsValue(s + [c], base) == DigitsValue(s, base) * base + DigitValue(c).value
  {
    assert (s + [c])[..|s|] == s;
  }

  /** strconv.FormatUint(n, base): the shortest lower-case digit string for `n`. */
  function FormatNat(n: nat, base: nat): (r: string)
    requires 2 <= base <= 36
    ensures 1 <= |r|
    ensures IsDigits(r, base) && DigitsValue(r, base) == n
    ensures |r| > 1 ==> r[0] != '0'
    decreases n
  {
    if n < base then
      DigitCharValue(n, base);
      [DigitChar(n)]
    else
      DivMod(n, base);
      var prefix := FormatNat(n / base, base);
      FormatStep(prefix, n, base);
      prefix + [DigitChar(n % base)]
  }

  lemma FormatStep(prefix: string, n: nat, base: nat)
    requires 2 <= base <= 36 && base <= n
    requires 1 <= |prefix| && IsDigits(prefix, base) && DigitsValue(prefix, base) == n / base
    requires |prefix| > 1 ==> prefix[0] != '0'
    ensures IsDigits(prefix + [DigitChar(n % base)], base)
    ensures DigitsValue(prefix + [DigitChar(n % base)], base) == n
    ensures (prefix + [DigitChar(n % base)])[0] != '0'
  {
    var q, d := n / base, n % base;
    DivMod(n, base);
    DigitCharValue(d, base);
    AppendDigit(prefix, DigitChar(d), base);
  }

  lemma DivMod(n: nat, base: nat)
    requires 2 <= base <= n
    ensures n == (n / base) * base + n % base && 1 <= n / base < n
  {
  }

  /** strconv.FormatInt(n, base). */
  function FormatInt(n: int, base: nat): string
    requires 2 <= base <= 36
  {
    if n < 0 then "-" + FormatNat(-n, base) else FormatNat(n, base)
  }

  /** ParseInt undoes FormatInt for every value that fits the bit size. */
  lemma FormatIntRoundTrip(n: int, base: nat, bitSize: nat)
    requires 2 <= base <= 36 && 1 <= bitSize <= 64
    requires -Cutoff(bitSize) <= n < Cutoff(bitSize)
    ensures ParseInt(FormatInt(n, base), base, bitSize) == Some(n)
  {
    var s := FormatInt(n, base);
    if n < 0 {
      assert s[1..] == FormatNat(-n, base);
    } else {
      assert DigitValue(s[0]).Some?;
    }
  }

  /** Zeros in front of a digit string do not change its value. */
  lemma {:induction false} LeadingZero(s: string, base: nat)
    requires 2 <= base && IsDigits(s, base)
    ensures IsDigits("0" + s, base) && DigitsValue("0" + s, base) == DigitsValue(s, base)
  {
    if s == [] {
      assert ("0" + s)[..0] == [];
    } else {
      var p := s[..|s| - 1];
      assert IsDigits(p, base);
      LeadingZero(p, base);
      assert ("0" + s)[..|"0" + s| - 1] == "0" + p;
    }
  }

  /** The value of a concatenation: the left part shifted by the right part's length. */
  lemma {:induction false} ConcatValue(a: string, b: string, base: nat)
    requires IsDigits(a, base) && IsDigits(b, base)
    ensures IsDigits(a + b, base)
    ensures DigitsValue(a + b, base) == DigitsValue(a, base) * Pow(base, |b|) + DigitsValue(b, base)
  {
    if |b| == 0 {
      assert a + b == a;
    } else {
      var p, c := b[..|b| - 1], b[|b| - 1];
      assert b == p + [c];
      assert IsDigits(p, base);
      ConcatValue(a, p, base);
      assert a + b == (a + p) + [c];
      AppendDigit(a + p, c, base);
      AppendDigit(p, c, base);
      ShiftArith(DigitsValue(a + b, base), DigitsValue(a, base), Pow(base, |p|), DigitsValue(p, base),
                 base, DigitValue(c).value, DigitsValue(b, base), Pow(base, |b|));
    }
  }

  /** Every string of `n` digits in `base` denotes a number below base^n. */
  lemma {:induction false} DigitsBound(s: string, base: nat)
    requires 1 <= base && IsDigits(s, base)
    ensures DigitsValue(s, base) < Pow(base, |s|)
  {
    if s != [] {
      var p := s[..|s| - 1];
      assert IsDigits(p, base);
      DigitsBound(p, base);
      BoundArith(DigitsValue(p, base), Pow(base, |p|), base, DigitValue(s[|s| - 1]).value);
    }
  }

  /** Appending a digit to both sides of "value of a + p == va * w + vp". */
  lemma ShiftArith(vab: nat, va: nat, w: nat, vp: nat, base: nat, d: nat, vb: nat, wb: nat)
    requires vab == (va * w + vp) * base + d && vb == vp * base + d && wb == base * w
    ensures vab == va * wb + vb
  {
  }

  lemma BoundArith(v: nat, w: nat, base: nat, d: nat)
    requires v + 1 <= w && d < base
    ensures v * base + d < base * w
  {
    assert v * base + d < (v + 1) * base;
    assert (v + 1) * base <= w * base;
  }
}
