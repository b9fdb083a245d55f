/** Go's integer division and remainder, which truncate toward zero. */
module GoInt {

  function Quo(a: int, b: int): (q: int)
    requires b != 0
    ensures a >= 0 && b > 0 ==> q == a / b
  {
    if (a >= 0) == (b > 0) then (if a >= 0 then a / b else (-a) / (-b))
    else -(Abs(a) / Abs(b))
  }

  function Rem(a: int, b: int): (r: int)
    requires b != 0
    ensures a == Quo(a, b) * b + r
    ensures a >= 0 && b > 0 ==> r == a % b
  {
    a - Quo(a, b) * b
  }

  function Abs(a: int): nat {
    if a < 0 then -a else a
  }

  /** The remainder of a natural by a natural, and with the divisor's sign flipped. */
  lemma NatRem(m: int, n: int)
    requires m >= 0 && n > 0
    ensures 0 <= m - (m / n) * n < n
    ensures m - (-(m / n)) * (-n) == m - (m / n) * n
  {
  }

  /** A negative dividend: the remainder is the negated remainder of its magnitude. */
  lemma NegRem(m: int, n: int)
    requires m >= 0 && n > 0
    ensures -m - (-(m / n)) * n == -(m - (m / n) * n)
    ensures -m - (m / n) * (-n) == -(m - (m / n) * n)
  {
  }

  /** Truncation: the quotient is the exact ratio rounded toward zero, and the remainder takes the dividend's sign. */
  lemma QuoRemSigns(a: int, b: int)
    requires b != 0
    ensures Abs(Rem(a, b)) < Abs(b)
    ensures a >= 0 ==> Rem(a, b) >= 0
    ensures a <= 0 ==> Rem(a, b) <= 0
  {
    var m: int, n: int := Abs(a), Abs(b);
    NatRem(m, n);
    NegRem(m, n);
    if a >= 0 && b > 0 {
      assert Rem(a, b) == m - (m / n) * n;
    } else if a >= 0 {
      assert Rem(a, b) == m - (-(m / n)) * (-n);
    } else if b > 0 {
      assert Rem(a, b) == -m - (-(m / n)) * n;
    } else {
      assert Rem(a, b) == -m - (m / n) * (-n);
    }
  }
}
