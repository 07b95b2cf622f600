/** The word-splitting view of a `long long` (common/gcc-millicode/longlong.h), for any
    half-word width: an `int` has `2 * h` bits, a digit has `h` bits.  Machine words are
    naturals; every operation that can wrap or drop bits says so. */
module Words {

  function Pow2(n: nat): (p: nat)
    ensures p >= 1
  {
    if n == 0 then 1 else 2 * Pow2(n - 1)
  }

  function Pow(b: nat, k: nat): (p: nat)
    ensures b >= 1 ==> p >= 1
  {
    if k == 0 then 1 else MulPositive(b, Pow(b, k - 1)); b * Pow(b, k - 1)
  }

  lemma MulPositive(a: nat, b: nat)
    ensures a * b >= 0
    ensures a >= 1 && b >= 1 ==> a * b >= 1
  {
    if a >= 1 && b >= 1 {
      assert a * b == (a - 1) * b + b;
    }
  }

  lemma {:induction false} PowAdd(b: nat, i: nat, j: nat)
    ensures Pow(b, i + j) == Pow(b, i) * Pow(b, j)
  {
    if i > 0 {
      PowAdd(b, i - 1, j);
      Assoc(b, Pow(b, i - 1), Pow(b, j));
    }
  }

  lemma Assoc(a: nat, b: nat, c: nat)
    ensures a * (b * c) == (a * b) * c
  {
  }

  lemma {:induction false} Pow2Add(a: nat, b: nat)
    ensures Pow2(a + b) == Pow2(a) * Pow2(b)
  {
    if a > 0 {
      Pow2Add(a - 1, b);
      assert Pow2(a + b) == 2 * Pow2(a - 1 + b);
      assert 2 * (Pow2(a - 1) * Pow2(b)) == 2 * Pow2(a - 1) * Pow2(b);
    }
  }

  lemma Pow2Monotone(a: nat, b: nat)
    requires a <= b
    ensures Pow2(a) <= Pow2(b)
  {
    if a < b {
      Pow2Monotone(a, b - 1);
    }
  }

  // ---- Division facts used throughout ----

  lemma DivUnique(x: int, d: int, q: int, r: int)
    requires d > 0 && x == q * d + r && 0 <= r < d
    ensures x / d == q && x % d == r
  {
    var q', r' := x / d, x % d;
    assert x == q' * d + r';
    assert (q - q') * d == r' - r;
    if q > q' {
      assert (q - q') * d == (q - q' - 1) * d + d;
      MulPositive(q - q' - 1, d);
      assert false;
    } else if q < q' {
      assert (q - q') * d == -((q' - q - 1) * d) - d;
      MulPositive(q' - q - 1, d);
      assert false;
    }
  }

  lemma SmallMod(x: int, m: int)
    requires 0 <= x < m
    ensures x % m == x
  {
    DivUnique(x, m, 0, x);
  }

  /** Two words side by side. */
  ghost function Long(w: nat, hi: int, lo: int): (r: int)
  {
    hi * w + lo
  }

  function Join(w: nat, hi: nat, lo: nat): (x: nat)
    ensures x == Long(w, hi, lo)
  {
    MulPositive(hi, w);
    hi * w + lo
  }

  lemma DivMod(x: int, d: int)
    requires d > 0
    ensures x == (x / d) * d + x % d && 0 <= x % d < d
  {
  }

  lemma MulLe(a: int, b: int, c: int)
    requires a <= b && 0 <= c
    ensures a * c <= b * c
  {
    assert b * c == a * c + (b - a) * c;
    MulPositive(b - a, c);
  }

  /** Cancels a common positive factor out of a strict inequality. */
  lemma MulLtCancel(a: int, b: int, c: int)
    requires 0 < c && a * c < b * c
    ensures a < b
  {
    if a >= b {
      MulLe(b, a, c);
    }
  }

  // ---- Bitwise operations on naturals ----

  function Or(a: nat, b: nat): (r: nat)
  {
    if a == 0 then b
    else 2 * Or(a / 2, b / 2) + (if a % 2 == 1 || b % 2 == 1 then 1 else 0)
  }

  function And(a: nat, b: nat): (r: nat)
  {
    if a == 0 then 0
    else 2 * And(a / 2, b / 2) + (if a % 2 == 1 && b % 2 == 1 then 1 else 0)
  }

  /** Or-ing bits into the zero low end of a word is addition. */
  lemma {:induction false} OrLow(hi: nat, lo: nat, k: nat)
    requires lo < Pow2(k)
    ensures Or(hi * Pow2(k), lo) == hi * Pow2(k) + lo
  {
    if k == 0 {
      OrZero(hi);
      assert hi * Pow2(k) == hi;
    } else if hi != 0 {
      var x := hi * Pow2(k);
      assert x == 2 * (hi * Pow2(k - 1));
      MulPositive(hi, Pow2(k));
      OrLow(hi, lo / 2, k - 1);
    }
  }

  lemma {:induction false} OrZero(a: nat)
    ensures Or(a, 0) == a
  {
    if a != 0 {
      OrZero(a / 2);
    }
  }

  lemma {:induction false} OrComm(a: nat, b: nat)
    ensures Or(a, b) == Or(b, a)
  {
    if a == 0 {
      OrZero(b);
    } else if b == 0 {
      OrZero(a);
    } else {
      OrComm(a / 2, b / 2);
    }
  }

  /** Masking with `k` one bits is reduction modulo 2^k. */
  lemma {:induction false} MaskIsMod(a: nat, k: nat)
    ensures And(a, Pow2(k) - 1) == a % Pow2(k)
  {
    if a == 0 || k == 0 {
      AndZero(a);
    } else {
      MaskIsMod(a / 2, k - 1);
      var p := Pow2(k - 1);
      assert (Pow2(k) - 1) / 2 == p - 1 && (Pow2(k) - 1) % 2 == 1;
      HalfMod(a, p);
    }
  }

  lemma HalfMod(a: nat, p: nat)
    requires p > 0
    ensures a % (2 * p) == 2 * (a / 2 % p) + a % 2
  {
    var q, r := a / 2 / p, a / 2 % p;
    DivMod(a / 2, p);
    assert q * (2 * p) == 2 * (q * p);
    DivUnique(a, 2 * p, q, 2 * r + a % 2);
  }

  lemma {:induction false} AndZero(a: nat)
    ensures And(a, 0) == 0
  {
    if a != 0 {
      AndZero(a / 2);
    }
  }

  // ---- The macros ----

  /** Truncating division of naturals. */
  function Div(x: nat, d: nat): (r: nat)
    requires d > 0
    ensures r * d <= x < r * d + d
  {
    x / d
  }

  /** `HHALF(x)`: the high digit of a word. */
  function HHalf(h: nat, x: nat): (r: nat)
    ensures r * Pow2(h) <= x < r * Pow2(h) + Pow2(h)
  {
    Div(x, Pow2(h))
  }

  lemma DivBound(x: nat, d: nat, b: nat)
    requires d > 0 && x < b * d
    ensures x / d < b
  {
    assert x == (x / d) * d + x % d;
    if x / d >= b {
      MulLe(b, x / d, d);
    }
  }

  /** `LHALF(x)`: the low digit of a word, by masking. */
  function LHalf(h: nat, x: nat): (r: nat)
    ensures r == x % Pow2(h) && r < Pow2(h)
  {
    MaskIsMod(x, h);
    And(x, Pow2(h) - 1)
  }

  /** `(unsigned int)x << s`: bits shifted past the top of the word are lost. */
  function Shl(h: nat, x: nat, s: nat): (r: nat)
    ensures x * Pow2(s) < Pow2(h) * Pow2(h) ==> r == x * Pow2(s)
  {
    MulPositive(x, Pow2(s));
    MulPositive(Pow2(h), Pow2(h));
    Mod(x * Pow2(s), Pow2(h) * Pow2(h))
  }

  /** Reduction modulo the word size. */
  function Mod(x: int, m: nat): (r: nat)
    requires m > 0
    ensures r < m && (0 <= x < m ==> r == x)
  {
    x % m
  }

  /** `LHUP(x)`: the low digit moved to the high half. */
  function LHUp(h: nat, x: nat): (r: nat)
    ensures r == (x % Pow2(h)) * Pow2(h) && r < Pow2(h) * Pow2(h)
  {
    var b := Pow2(h);
    var q := x / b;
    assert x == q * b + x % b;
    assert x * b == q * (b * b) + (x % b) * b by {
      assert (q * b) * b == q * (b * b);
      assert x * b == (q * b + x % b) * b;
    }
    MulPositive(x % b, b);
    assert (x % b) * b < b * b by {
      MulLe(x % b, b - 1, b);
      assert (b - 1) * b == b * b - b;
    }
    DivUnique(x * b, b * b, q, (x % b) * b);
    Shl(h, x, h)
  }

  /** `COMBINE(a, b)`: a two-digit number. */
  function Combine(h: nat, a: nat, b: nat): (r: nat)
    requires a < Pow2(h) && b < Pow2(h)
    ensures r == a * Pow2(h) + b && r < Pow2(h) * Pow2(h)
  {
    var p := Pow2(h);
    assert a * p + b < p * p by {
      MulLe(a, p - 1, p);
      assert (p - 1) * p == p * p - p;
    }
    OrLow(a, b, h);
    Or(Shl(h, a, h), b)
  }
}
