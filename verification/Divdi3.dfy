/** `__divdi3` and `__moddi3` (common/gcc-millicode/divdi3.c, moddi3.c): signed division on top
    of `__qdivrem`, of which only the contract is used. */
module Divdi3 {
  import opened Words
  import opened TwosComplement
  import Qdivrem

  /** Truncated division, section 6.5.5 of ISO/IEC 9899:1999: the remainder is smaller than
      the divisor and has the sign of the dividend. */
  ghost predicate IsTruncatedDivision(a: int, b: int, q: int, r: int)
  {
    && a == q * b + r
    && Abs(r) < Abs(b)
    && (r == 0 || (r < 0 <==> a < 0))
  }

  function Abs(x: int): (r: nat)
  {
    if x < 0 then -x else x
  }

  /** Truncated division has at most one answer. */
  lemma TruncatedUnique(a: int, b: int, q: int, r: int, q': int, r': int)
    requires b != 0 && IsTruncatedDivision(a, b, q, r) && IsTruncatedDivision(a, b, q', r')
    ensures q == q' && r == r'
  {
    assert (q - q') * b == r' - r;
    if q != q' {
      AbsProduct(q - q', b);
      MulLe(1, Abs(q - q'), Abs(b));
    }
  }

  lemma AbsProduct(x: int, y: int)
    ensures Abs(x * y) == Abs(x) * Abs(y)
  {
    var ax, ay: int := Abs(x), Abs(y);
    MulPositive(Abs(x), Abs(y));
    if x < 0 && y < 0 {
      assert x * y == ax * ay;
    } else if x < 0 {
      assert x * y == -(ax * ay);
    } else if y < 0 {
      assert x * y == -(ax * ay);
    }
  }

  /** The number of values of a long long, as four digits. */
  function Size(h: nat): (m: nat)
    ensures m == Pow(Pow2(h), 4) && m > 0
  {
    Pow(Pow2(h), 4)
  }

  /** The quotient of magnitudes with the signs put back. */
  lemma SignedQuotient(a: int, b: int, ua: nat, ub: nat, na: bool, nb: bool, uq: nat, ur: nat)
    requires a == (if na then 0 - ua else ua) && b == (if nb then 0 - ub else ub) && (na <==> a < 0) && b != 0
    requires ua == uq * ub + ur && ur < ub
    ensures IsTruncatedDivision(a, b, if na != nb then 0 - uq else uq, if na then 0 - ur else ur)
  {
    assert (0 - uq) * (0 - ub) == uq * ub;
    assert (0 - uq) * ub == -(uq * ub);
    assert uq * (0 - ub) == -(uq * ub);
    MulPositive(uq, ub);
  }

  /** Only the least value divided by -1 has a quotient outside the type. */
  lemma QuotientFits(m: nat, a: int, b: int, q: int, r: int)
    requires m > 0 && m % 2 == 0 && InRange(m, a) && b != 0 && IsTruncatedDivision(a, b, q, r)
    ensures InRange(m, q) <==> !(2 * a + m == 0 && b == -1)
  {
    QuotientSize(a, b, q, r);
    if b == 1 {
      assert q * 1 == q;
    } else if b == -1 {
      assert q * -1 == -q;
    }
  }

  lemma QuotientSize(a: int, b: int, q: int, r: int)
    requires b != 0 && IsTruncatedDivision(a, b, q, r)
    ensures Abs(b) >= 2 ==> 2 * Abs(q) <= Abs(a)
    ensures Abs(b) == 1 ==> r == 0
  {
    hide IsTruncatedDivision;
    TruncatedSmaller(a, b, q, r);
    AbsProduct(q, b);
    if Abs(b) >= 2 {
      TwiceLe(Abs(q), Abs(b), Abs(a));
    }
  }

  lemma TwiceLe(x: nat, y: nat, n: nat)
    requires x * y <= n && y >= 2
    ensures 2 * x <= n
  {
    MulLe(2, y, x);
    assert y * x == x * y;
  }

  lemma TruncatedSmaller(a: int, b: int, q: int, r: int)
    requires b != 0 && IsTruncatedDivision(a, b, q, r)
    ensures Abs(q * b) <= Abs(a) && Abs(r) < Abs(b)
  {
    AbsProduct(q, b);
    if q == 0 {
    } else {
      MulLe(1, Abs(q), Abs(b));
    }
  }

  /** `__divdi3`: the result is the truncated quotient t modulo the size of the type, and it
      is t itself except for the least value divided by -1. */
  method Divdi3(h: nat, a: int, b: int) returns (q: int, ghost t: int, ghost r: int)
    requires h >= 1 && InRange(Size(h), a) && InRange(Size(h), b) && b != 0
    ensures IsTruncatedDivision(a, b, t, r)
    ensures InRange(Size(h), q) && Congruent(Size(h), q, t)
    ensures q == t <==> !(2 * a + Size(h) == 0 && b == -1)
  {
    hide *;
    SizeEven(h);
    var ua, na := Magnitude(Size(h), a);
    var ub, nb := Magnitude(Size(h), b);
    var uq, ur := Qdivrem.Qdivrem(h, ua, ub);
    QuotientBelow(ua, ub, uq, ur);
    q := Signed(Size(h), if na != nb then Negate(Size(h), uq) else uq);
    t := if na != nb then -(uq as int) else uq;
    r := if na then -(ur as int) else ur;
    SignedQuotient(a, b, ua, ub, na, nb, uq, ur);
    if na != nb {
      CongTrans(Size(h), q, Negate(Size(h), uq), t);
    }
    QuotientFits(Size(h), a, b, t, r);
    RangeDecides(Size(h), q, t);
  }

  lemma SizeEven(h: nat)
    requires h >= 1
    ensures Size(h) % 2 == 0
  {
    var p := Pow(Pow2(h), 3);
    assert Pow2(h) == 2 * Pow2(h - 1);
    assert Size(h) == 2 * Pow2(h - 1) * p == 2 * (Pow2(h - 1) * p);
  }

  lemma QuotientBelow(ua: nat, ub: nat, uq: nat, ur: nat)
    requires ua == uq * ub + ur && ub > 0
    ensures uq <= ua && ur <= ua
  {
    MulLe(1, ub, uq);
    assert ub * uq == uq * ub;
    MulPositive(uq, ub);
  }

  /** A value of the type congruent to t is t itself exactly when t is in the type. */
  lemma RangeDecides(m: nat, q: int, t: int)
    requires InRange(m, q) && Congruent(m, q, t)
    ensures q == t <==> InRange(m, t)
  {
    if InRange(m, t) {
      CongClose(m, q, t);
    }
  }

  /** `__moddi3`: the truncated remainder, always. */
  method Moddi3(h: nat, a: int, b: int) returns (r: int, ghost t: int)
    requires h >= 1 && InRange(Size(h), a) && InRange(Size(h), b) && b != 0
    ensures IsTruncatedDivision(a, b, t, r)
    ensures Abs(r) < Abs(b) && (r == 0 || (r < 0 <==> a < 0))
  {
    hide *;
    var ua, na := Magnitude(Size(h), a);
    var ub, nb := Magnitude(Size(h), b);
    var uq, ur := Qdivrem.Qdivrem(h, ua, ub);
    QuotientBelow(ua, ub, uq, ur);
    r := Signed(Size(h), if na then Negate(Size(h), ur) else ur);
    t := if na != nb then -(uq as int) else uq;
    ghost var x: int := if na then -(ur as int) else ur;
    SignedQuotient(a, b, ua, ub, na, nb, uq, ur);
    if na {
      CongTrans(Size(h), r, Negate(Size(h), ur), x);
    }
    SmallRange(Size(h), ur, ub);
    RangeDecides(Size(h), r, x);
  }

  lemma SmallRange(m: nat, ur: nat, ub: nat)
    requires ur < ub && 2 * ub <= m
    ensures InRange(m, ur) && InRange(m, 0 - ur)
  {
  }
}
