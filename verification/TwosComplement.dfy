/** Signed integers represented modulo m, as the millicode assumes
    (common/gcc-millicode/longlong.h): m is the number of values of the type. */
module TwosComplement {
  import opened Words

  ghost predicate Congruent(m: nat, x: int, y: int)
  {
    exists k: int :: Wraps(m, x, y, k)
  }

  ghost predicate Wraps(m: nat, x: int, y: int, k: int)
  {
    x == y + k * m
  }

  lemma CongRefl(m: nat, x: int)
    ensures Congruent(m, x, x)
  {
    assert Wraps(m, x, x, 0);
  }

  lemma CongMod(m: nat, x: int)
    requires m > 0
    ensures Congruent(m, Mod(x, m), x)
  {
    DivMod(x, m);
    assert (-(x / m)) * m == -((x / m) * m);
    assert Wraps(m, Mod(x, m), x, -(x / m));
  }

  lemma CongTrans(m: nat, x: int, y: int, z: int)
    requires Congruent(m, x, y) && Congruent(m, y, z)
    ensures Congruent(m, x, z)
  {
    var k :| Wraps(m, x, y, k);
    var l :| Wraps(m, y, z, l);
    assert (k + l) * m == k * m + l * m;
    assert Wraps(m, x, z, k + l);
  }

  lemma CongAdd(m: nat, x: int, y: int, x': int, y': int)
    requires Congruent(m, x, y) && Congruent(m, x', y')
    ensures Congruent(m, x + x', y + y')
  {
    var k :| Wraps(m, x, y, k);
    var l :| Wraps(m, x', y', l);
    assert (k + l) * m == k * m + l * m;
    assert Wraps(m, x + x', y + y', k + l);
  }

  lemma CongNeg(m: nat, x: int, y: int)
    requires Congruent(m, x, y)
    ensures Congruent(m, -x, -y)
  {
    var k :| Wraps(m, x, y, k);
    assert (-k) * m == -(k * m);
    assert Wraps(m, -x, -y, -k);
  }

  /** A congruence modulo m becomes one modulo m * m when scaled by m. */
  lemma CongScale(m: nat, x: int, y: int, d: int)
    requires Congruent(m, x, y)
    ensures Congruent(m * m, x * m + d, y * m + d)
  {
    var k :| Wraps(m, x, y, k);
    assert (y + k * m) * m == y * m + k * (m * m);
    assert Wraps(m * m, x * m + d, y * m + d, k);
  }

  /** Congruent numbers less than m apart are equal. */
  lemma CongClose(m: nat, x: int, y: int)
    requires Congruent(m, x, y) && 0 < x - y + m && x - y < m
    ensures x == y
  {
    var k :| Wraps(m, x, y, k);
    if k >= 1 {
      MulLe(1, k, m);
    } else if k <= -1 {
      MulLe(k, -1, m);
    }
  }

  /** The values of the signed type. */
  ghost predicate InRange(m: nat, a: int)
  {
    0 <= 2 * a + m && 2 * a < m
  }

  /** The signed value whose representation is x. */
  function Signed(m: nat, x: nat): (a: int)
    requires x < m
    ensures InRange(m, a) && Congruent(m, a, x)
  {
    assert Wraps(m, x, x, 0);
    assert Wraps(m, x - m, x, -1) by { assert (-1) * m == 0 - m; }
    if 2 * x < m then x else x - m
  }

  /** Two's complement negation of a representation. */
  function Negate(m: nat, x: nat): (r: nat)
    requires x < m
    ensures r < m && Congruent(m, r, 0 - x)
  {
    CongMod(m, 0 - x);
    Mod(0 - x, m)
  }

  /** The representation of a, negated if a is negative: its magnitude, also for the least
      value, whose negation does not fit the signed type. */
  method Magnitude(m: nat, a: int) returns (u: nat, neg: bool)
    requires InRange(m, a)
    ensures a == (if neg then 0 - u else u) && (neg <==> a < 0)
    ensures u < m && 2 * u <= m
  {
    u := Mod(a, m);
    neg := a < 0;
    CongMod(m, a);
    if neg {
      CongNeg(m, u, a);
      u := Negate(m, u);
      CongTrans(m, u, 0 - Mod(a, m), -a);
      CongClose(m, u, -a);
    }
  }
}
