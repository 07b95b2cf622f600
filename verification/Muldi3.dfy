/** `__lmulq` and `__muldi3` (common/gcc-millicode/muldi3.c), for every half-word width h.
    A word is below w = B * B and a long long below w * w; a long long is a pair of words. */
module Muldi3 {
  import opened Words
  import opened TwosComplement

  /** Word addition: the carry out shows as a sum below either operand. */
  method AddWord(w: nat, x: nat, y: nat) returns (sum: nat, carry: nat)
    requires x < w && y < w
    ensures sum < w && sum + carry * w == x + y
    ensures carry == (if sum < x then 1 else 0) && carry == (if sum < y then 1 else 0)
  {
    sum := Mod(x + y, w);
    carry := if sum < x then 1 else 0;
    if x + y >= w {
      DivUnique(x + y, w, 1, x + y - w);
    }
    assert 1 * w == w && 0 * w == 0;
  }

  /** Word subtraction: a borrow shows as a difference above the minuend. */
  method SubtractWord(w: nat, x: nat, y: nat) returns (diff: nat, borrow: nat)
    requires x < w && y < w
    ensures diff < w && diff + y == x + borrow * w
    ensures borrow == (if diff > x then 1 else 0)
  {
    diff := Mod(x - y, w);
    borrow := if diff > x then 1 else 0;
    if x < y {
      DivUnique(x - y, w, -1, x - y + w);
    }
    assert 1 * w == w && 0 * w == 0;
  }

  /** The number of values of a long long. */
  function LongSize(h: nat): (m: nat)
    ensures m > 0 && m == (Pow2(h) * Pow2(h)) * (Pow2(h) * Pow2(h))
  {
    var w := Pow2(h) * Pow2(h);
    MulPositive(Pow2(h), Pow2(h));
    MulPositive(w, w);
    w * w
  }

  /** Replacing the high word by its value modulo w loses only bits off the top. */
  lemma HighWraps(w: nat, hi: int, hi': nat, lo: int)
    requires w > 0 && hi' == Mod(hi, w)
    ensures Congruent(w * w, Long(w, hi', lo), Long(w, hi, lo))
  {
    CongMod(w, hi);
    CongScale(w, hi', hi, lo);
  }

  /** prod += x << N, where x << N splits into HHALF(x) and LHUP(x). */
  method AddShifted(h: nat, hi: nat, lo: nat, x: nat) returns (hi': nat, lo': nat)
    requires hi < Pow2(h) * Pow2(h) && lo < Pow2(h) * Pow2(h) && x < Pow2(h) * Pow2(h)
    ensures hi' < Pow2(h) * Pow2(h) && lo' < Pow2(h) * Pow2(h)
    ensures Congruent(LongSize(h), Long(Pow2(h) * Pow2(h), hi', lo'), Long(Pow2(h) * Pow2(h), hi, lo) + x * Pow2(h))
  {
    hide Congruent, Long, LHUp;
    var w := Pow2(h) * Pow2(h);
    MulPositive(Pow2(h), Pow2(h));
    var carry;
    lo', carry := AddWord(w, lo, LHUp(h, x));
    hi' := Mod(hi + HHalf(h, x) + carry, w);
    HighWraps(w, hi + HHalf(h, x) + carry, hi', lo');
    ShiftSplit(h, x);
    CarryIn(w, hi, lo, HHalf(h, x), LHUp(h, x), carry, lo');
  }

  lemma CarryIn(w: nat, hi: nat, lo: nat, xh: nat, xl: nat, carry: nat, lo': nat)
    requires lo' + carry * w == lo + xl
    ensures Long(w, hi + xh + carry, lo') == Long(w, hi, lo) + Long(w, xh, xl)
  {
    assert (hi + xh + carry) * w == hi * w + xh * w + carry * w;
  }

  lemma ShiftSplit(h: nat, x: nat)
    ensures Long(Pow2(h) * Pow2(h), HHalf(h, x), LHUp(h, x)) == x * Pow2(h)
  {
    DivMod(x, Pow2(h));
    SplitProduct(x, Pow2(h), x / Pow2(h), x % Pow2(h));
  }

  lemma SplitProduct(x: nat, b: nat, q: int, r: int)
    requires x == q * b + r
    ensures q * (b * b) + r * b == x * b
  {
    assert (q * b + r) * b == q * b * b + r * b;
    assert q * b * b == q * (b * b);
  }

  /** prod -= x << N. */
  method SubtractShifted(h: nat, hi: nat, lo: nat, x: nat) returns (hi': nat, lo': nat)
    requires hi < Pow2(h) * Pow2(h) && lo < Pow2(h) * Pow2(h) && x < Pow2(h) * Pow2(h)
    ensures hi' < Pow2(h) * Pow2(h) && lo' < Pow2(h) * Pow2(h)
    ensures Congruent(LongSize(h), Long(Pow2(h) * Pow2(h), hi', lo'), Long(Pow2(h) * Pow2(h), hi, lo) - x * Pow2(h))
  {
    hide Congruent, Long, LHUp;
    var w := Pow2(h) * Pow2(h);
    MulPositive(Pow2(h), Pow2(h));
    var borrow;
    lo', borrow := SubtractWord(w, lo, LHUp(h, x));
    hi' := Mod(hi - (HHalf(h, x) + borrow), w);
    HighWraps(w, hi - (HHalf(h, x) + borrow), hi', lo');
    ShiftSplit(h, x);
    BorrowIn(w, hi, lo, HHalf(h, x), LHUp(h, x), borrow, lo');
  }

  lemma BorrowIn(w: nat, hi: nat, lo: nat, xh: nat, xl: nat, borrow: nat, lo': nat)
    requires lo' + xl == lo + borrow * w
    ensures Long(w, hi - (xh + borrow), lo') == Long(w, hi, lo) - Long(w, xh, xl)
  {
    assert (hi - (xh + borrow)) * w == hi * w - xh * w - borrow * w;
  }

  /** The difference of two digits as magnitude and sign. */
  method AbsDiff(x: nat, y: nat) returns (d: nat, neg: bool)
    ensures x - y == if neg then 0 - d else d
    ensures d <= x || d <= y
  {
    if x >= y {
      d, neg := x - y, false;
    } else {
      d, neg := y - x, true;
    }
  }

  /** Knuth's three-multiplication identity for u = (u1 u0), v = (v1 v0). */
  lemma ThreeProducts(b: nat, u1: nat, u0: nat, v1: nat, v0: nat, mid: int)
    requires mid == (u1 - u0) * (v0 - v1)
    ensures (u1 * b + u0) * (v1 * b + v0)
         == u1 * v1 * (b * b) + u1 * v1 * b + mid * b + u0 * v0 * b + u0 * v0
    ensures u1 * v1 + mid + u0 * v0 == u1 * v0 + u0 * v1
  {
    assert (u1 - u0) * (v0 - v1) == u1 * v0 - u1 * v1 - u0 * v0 + u0 * v1;
    var cross := u1 * v0 + u0 * v1;
    assert (u1 * b + u0) * (v1 * b + v0) == u1 * b * (v1 * b) + u1 * b * v0 + u0 * (v1 * b) + u0 * v0;
    assert u1 * b * (v1 * b) == u1 * v1 * (b * b);
    assert u1 * b * v0 + u0 * (v1 * b) == cross * b;
    assert cross == u1 * v1 + mid + u0 * v0;
    assert (u1 * v1 + mid + u0 * v0) * b == u1 * v1 * b + mid * b + u0 * v0 * b;
  }

  /** The signed middle term as the code keeps it: a product of magnitudes and a sign flag. */
  lemma SignedProduct(x: int, y: int, dx: nat, dy: nat, nx: bool, ny: bool)
    requires x == (if nx then 0 - dx else dx) && y == (if ny then 0 - dy else dy)
    ensures 0 <= dx * dy && x * y == (if nx != ny then -(dx * dy) else dx * dy)
  {
    MulPositive(dx, dy);
  }

  lemma DigitProduct(b: nat, x: nat, y: nat)
    requires x < b && y < b
    ensures 0 <= x * y && x * y + 2 * b <= b * b + 1
  {
    MulPositive(x, y);
    MulLe(x, b - 1, y);
    MulLe(y, b - 1, b - 1);
    assert (b - 1) * y == y * (b - 1);
    assert (b - 1) * (b - 1) == b * b - 2 * b + 1;
  }

  /** (u1 - u0) * (v0 - v1) of digits, as magnitude and sign. */
  method MiddleProduct(b: nat, u1: nat, u0: nat, v1: nat, v0: nat) returns (mid: nat, neg: bool)
    requires u1 < b && u0 < b && v1 < b && v0 < b
    ensures (u1 - u0) * (v0 - v1) == (if neg then 0 - mid else mid) && mid < b * b
  {
    var udiff, nu := AbsDiff(u1, u0);
    var vdiff, nv := AbsDiff(v0, v1);
    DigitProduct(b, udiff, vdiff);
    SignedProduct((u1 as int) - u0, (v0 as int) - v1, udiff, vdiff, nu, nv);
    mid, neg := udiff * vdiff, nu != nv;
  }

  /** `__lmulq`: the exact two-word product of two words. */
  method Lmulq(h: nat, u: nat, v: nat) returns (hi: nat, lo: nat)
    requires u < Pow2(h) * Pow2(h) && v < Pow2(h) * Pow2(h)
    ensures hi < Pow2(h) * Pow2(h) && lo < Pow2(h) * Pow2(h)
    ensures Long(Pow2(h) * Pow2(h), hi, lo) == u * v
  {
    hide *;
    var b, w := Pow2(h), Pow2(h) * Pow2(h);
    var u1, u0, v1, v0 := HHalf(h, u), LHalf(h, u), HHalf(h, v), LHalf(h, v);
    Halves(h, u);
    Halves(h, v);
    DigitProduct(b, u0, v0);
    DigitProduct(b, u1, v1);
    var low := u0 * v0;
    if u1 == 0 && v1 == 0 {
      SmallProduct(w, b, u0, v0);
      return 0, low;
    }
    var mid, neg := MiddleProduct(b, u1, u0, v1, v0);
    var high := u1 * v1;
    HighStart(h, high);
    hi, lo := high + HHalf(h, high), LHUp(h, high);
    ghost var p0 := Long(w, hi, lo);
    if neg {
      hi, lo := SubtractShifted(h, hi, lo, mid);
    } else {
      hi, lo := AddShifted(h, hi, lo, mid);
    }
    ghost var p1 := Long(w, hi, lo);
    hi, lo := AddShifted(h, hi, lo, low);
    ghost var p2 := Long(w, hi, lo);
    hi, lo := AddLow(h, hi, lo, low);
    LmulqSum(h, u, v, u1, u0, v1, v0, mid, neg, p0, p1, p2, Long(w, hi, lo));
    LongRange(w, hi, lo);
    ProductRange(w, u, v);
    CongClose(LongSize(h), Long(w, hi, lo), u * v);
  }

  /** The shifted sums come to the product. */
  lemma LmulqSum(h: nat, u: nat, v: nat, u1: nat, u0: nat, v1: nat, v0: nat, mid: nat, neg: bool,
                 p0: int, p1: int, p2: int, p3: int)
    requires u == u1 * Pow2(h) + u0 && v == v1 * Pow2(h) + v0
    requires (if neg then 0 - mid else mid) == ((u1 as int) - u0) * ((v0 as int) - v1)
    requires p0 == (u1 * v1) * (Pow2(h) * Pow2(h)) + (u1 * v1) * Pow2(h)
    requires Congruent(LongSize(h), p1, p0 + (if neg then -(mid * Pow2(h)) else mid * Pow2(h)))
    requires Congruent(LongSize(h), p2, p1 + (u0 * v0) * Pow2(h)) && Congruent(LongSize(h), p3, p2 + u0 * v0)
    ensures Congruent(LongSize(h), p3, u * v)
  {
    hide *;
    var b, low := Pow2(h), u0 * v0;
    var signedMid := if neg then 0 - mid else mid;
    NegateScaled(mid, b, neg);
    SumParts(LongSize(h), p0, p1, p2, p3, signedMid * b, low * b, low);
    ThreeProducts(b, u1, u0, v1, v0, signedMid);
  }

  lemma Halves(h: nat, x: nat)
    requires x < Pow2(h) * Pow2(h)
    ensures HHalf(h, x) < Pow2(h) && LHalf(h, x) < Pow2(h) && x == HHalf(h, x) * Pow2(h) + LHalf(h, x)
  {
    DivBound(x, Pow2(h), Pow2(h));
    DivMod(x, Pow2(h));
  }

  lemma SmallProduct(w: nat, b: nat, u0: nat, v0: nat)
    ensures Long(w, 0, u0 * v0) == (0 * b + u0) * (0 * b + v0)
  {
  }

  lemma NegateScaled(mid: nat, b: nat, neg: bool)
    ensures (if neg then 0 - mid else mid) * b == (if neg then -(mid * b) else mid * b)
  {
  }

  /** prod = (high << 2N) + (high << N) fits in two words. */
  lemma HighStart(h: nat, high: nat)
    requires high + 2 * Pow2(h) <= Pow2(h) * Pow2(h) + 1
    ensures high + HHalf(h, high) < Pow2(h) * Pow2(h)
    ensures Long(Pow2(h) * Pow2(h), high + HHalf(h, high), LHUp(h, high))
         == high * (Pow2(h) * Pow2(h)) + high * Pow2(h)
  {
    ShiftSplit(h, high);
    Halves(h, high);
    DistributeSum(high, HHalf(h, high), Pow2(h) * Pow2(h));
  }

  lemma DistributeSum(x: int, y: int, w: int)
    ensures (x + y) * w == x * w + y * w
  {
  }

  /** prod += low: the carry test compares with low instead of the old low word. */
  method AddLow(h: nat, hi: nat, lo: nat, low: nat) returns (hi': nat, lo': nat)
    requires hi < Pow2(h) * Pow2(h) && lo < Pow2(h) * Pow2(h) && low < Pow2(h) * Pow2(h)
    ensures hi' < Pow2(h) * Pow2(h) && lo' < Pow2(h) * Pow2(h)
    ensures Congruent(LongSize(h), Long(Pow2(h) * Pow2(h), hi', lo'), Long(Pow2(h) * Pow2(h), hi, lo) + low)
  {
    hide Congruent, Long;
    var w := Pow2(h) * Pow2(h);
    MulPositive(Pow2(h), Pow2(h));
    var carry;
    lo', carry := AddWord(w, lo, low);
    hi' := hi;
    if lo' < low {
      hi' := Mod(hi + 1, w);
    }
    SmallMod(hi, w);
    HighWraps(w, hi + carry, hi', lo');
    CarryIn(w, hi, lo, 0, low, carry, lo');
    LowOnly(w, low);
  }

  lemma LowOnly(w: nat, low: nat)
    ensures Long(w, 0, low) == low
  {
  }

  lemma SumParts(m: nat, p0: int, p1: int, p2: int, p3: int, a: int, b: int, c: int)
    requires Congruent(m, p1, p0 + a) && Congruent(m, p2, p1 + b) && Congruent(m, p3, p2 + c)
    ensures Congruent(m, p3, p0 + a + b + c)
  {
    CongRefl(m, b);
    CongRefl(m, c);
    CongAdd(m, p1, p0 + a, b, b);
    CongTrans(m, p2, p1 + b, p0 + a + b);
    CongAdd(m, p2, p0 + a + b, c, c);
    CongTrans(m, p3, p2 + c, p0 + a + b + c);
  }

  lemma LongRange(w: nat, hi: nat, lo: nat)
    requires hi < w && lo < w
    ensures 0 <= Long(w, hi, lo) < w * w
  {
    MulPositive(hi, w);
    MulLe(hi, w - 1, w);
    assert (w - 1) * w == w * w - w;
  }

  lemma ProductRange(w: nat, u: nat, v: nat)
    requires u < w && v < w
    ensures 0 <= u * v < w * w
  {
    DigitProduct(w, u, v);
  }

  // ---- Signed long longs ----

  /** prod.ui[H] from the three products: the cross terms plus the high word of `low`. */
  method HighProduct(w: nat, u1: nat, u0: nat, v1: nat, v0: nat, lowH: nat, lowL: nat) returns (hi: nat)
    requires w > 0 && Long(w, lowH, lowL) == u0 * v0
    ensures hi < w && Congruent(w, hi, u1 * v0 + u0 * v1 + lowH)
  {
    hide *;
    var udiff, nu := AbsDiff(u1, u0);
    var vdiff, nv := AbsDiff(v0, v1);
    SignedProduct((u1 as int) - u0, (v0 as int) - v1, udiff, vdiff, nu, nv);
    var mid := Mod(udiff * vdiff, w);
    var high := Mod(u1 * v1, w);
    hi := Mod(high + (if nu != nv then Mod(-(mid as int), w) else mid) + lowL + lowH, w);
    HighWord(w, u1, u0, v1, v0, high, mid, udiff * vdiff, nu != nv, lowH, lowL, hi);
  }

  /** The product of two unsigned long longs modulo their size. */
  method MulUnsigned(h: nat, u: nat, v: nat) returns (prod: nat)
    requires u < LongSize(h) && v < LongSize(h)
    ensures prod < LongSize(h) && Congruent(LongSize(h), prod, u * v)
  {
    hide *;
    var w := Pow2(h) * Pow2(h);
    MulPositive(Pow2(h), Pow2(h));
    var u1, u0 := Div(u, w), Mod(u, w);
    var v1, v0 := Div(v, w), Mod(v, w);
    SplitLong(w, u);
    SplitLong(w, v);
    var lowH, lowL := Lmulq(h, u0, v0);
    var hi := lowH;
    if u1 == 0 && v1 == 0 {
      CongRefl(w, lowH);
      ZeroCross(u0, v0);
    } else {
      hi := HighProduct(w, u1, u0, v1, v0, lowH, lowL);
    }
    ProductCongruent(w, u, v, u1, u0, v1, v0, hi, lowH, lowL);
    LongRange(w, hi, lowL);
    prod := Join(w, hi, lowL);
  }

  /** `__muldi3`: the product modulo the size of a long long, in two's complement. */
  method Muldi3(h: nat, a: int, b: int) returns (r: int)
    requires InRange(LongSize(h), a) && InRange(LongSize(h), b)
    ensures InRange(LongSize(h), r) && Congruent(LongSize(h), r, a * b)
  {
    hide *;
    var u, na := Magnitude(LongSize(h), a);
    var v, nb := Magnitude(LongSize(h), b);
    var prod := MulUnsigned(h, u, v);
    ApplySign(LongSize(h), a, b, u, v, na, nb, prod);
    r := Signed(LongSize(h), if na != nb then Negate(LongSize(h), prod) else prod);
  }

  lemma SplitLong(w: nat, u: nat)
    requires w > 0 && u < w * w
    ensures Div(u, w) < w && Mod(u, w) < w && u == Div(u, w) * w + Mod(u, w)
  {
    DivBound(u, w, w);
    DivMod(u, w);
  }

  lemma ZeroCross(u0: nat, v0: nat)
    ensures 0 * v0 + u0 * 0 == 0
  {
  }

  /** high + mid + low.ui[L] + low.ui[H] is the cross product plus the carry from the low half. */
  lemma HighWord(w: nat, u1: nat, u0: nat, v1: nat, v0: nat, high: nat, mid: nat, mag: nat, neg: bool,
                 lowH: nat, lowL: nat, hi: nat)
    requires w > 0 && high == Mod(u1 * v1, w) && mid == Mod(mag, w)
    requires (u1 - u0) * (v0 - v1) == (if neg then 0 - mag else mag)
    requires Long(w, lowH, lowL) == u0 * v0
    requires hi == Mod(high + (if neg then Mod(0 - mid, w) else mid) + lowL + lowH, w)
    ensures Congruent(w, hi, u1 * v0 + u0 * v1 + lowH)
  {
    hide Congruent;
    var x := if neg then Mod(0 - mid, w) else mid;
    var smid := (u1 - u0) * (v0 - v1);
    CongMod(w, u1 * v1);
    CongMod(w, mag);
    if neg {
      CongMod(w, 0 - mid);
      CongNeg(w, mid, mag);
      CongTrans(w, x, 0 - mid, smid);
    }
    CongAdd(w, high, u1 * v1, x, smid);
    LowHalf(w, lowH, lowL, u0 * v0);
    CongAdd(w, high + x, u1 * v1 + smid, lowL, u0 * v0);
    CongRefl(w, lowH);
    CongAdd(w, high + x + lowL, u1 * v1 + smid + u0 * v0, lowH, lowH);
    CongMod(w, high + x + lowL + lowH);
    CongTrans(w, hi, high + x + lowL + lowH, u1 * v1 + smid + u0 * v0 + lowH);
    ThreeProducts(w, u1, u0, v1, v0, smid);
  }

  lemma LowHalf(w: nat, lowH: nat, lowL: nat, p: int)
    requires Long(w, lowH, lowL) == p
    ensures Congruent(w, lowL, p)
  {
    assert (0 - lowH) * w == 0 - lowH * w;
    assert Wraps(w, lowL, p, 0 - lowH);
  }

  /** The words assembled so far represent u * v. */
  lemma ProductCongruent(w: nat, u: nat, v: nat, u1: nat, u0: nat, v1: nat, v0: nat, hi: nat, lowH: nat, lowL: nat)
    requires u == u1 * w + u0 && v == v1 * w + v0
    requires Congruent(w, hi, u1 * v0 + u0 * v1 + lowH) && Long(w, lowH, lowL) == u0 * v0
    ensures Congruent(w * w, Long(w, hi, lowL), u * v)
  {
    var cross := u1 * v0 + u0 * v1;
    CongScale(w, hi, cross + lowH, lowL);
    ExpandProduct(w, u1, u0, v1, v0);
    assert (cross + lowH) * w + lowL == cross * w + u0 * v0;
    assert (-(u1 * v1)) * (w * w) == -(u1 * v1 * (w * w));
    assert Wraps(w * w, (cross + lowH) * w + lowL, u * v, -(u1 * v1));
    CongTrans(w * w, Long(w, hi, lowL), (cross + lowH) * w + lowL, u * v);
  }

  lemma ExpandProduct(w: nat, u1: nat, u0: nat, v1: nat, v0: nat)
    ensures (u1 * w + u0) * (v1 * w + v0) == u1 * v1 * (w * w) + (u1 * v0 + u0 * v1) * w + u0 * v0
  {
    assert (u1 * w + u0) * (v1 * w + v0) == u1 * w * (v1 * w) + u1 * w * v0 + u0 * (v1 * w) + u0 * v0;
    assert u1 * w * (v1 * w) == u1 * v1 * (w * w);
    assert u1 * w * v0 + u0 * (v1 * w) == (u1 * v0 + u0 * v1) * w;
  }

  /** Negating the product when exactly one factor is negative. */
  lemma ApplySign(m: nat, a: int, b: int, u: nat, v: nat, na: bool, nb: bool, prod: nat)
    requires a == (if na then 0 - u else u) && b == (if nb then 0 - v else v)
    requires prod < m && Congruent(m, prod, u * v)
    ensures Congruent(m, Signed(m, if na != nb then Negate(m, prod) else prod), a * b)
  {
    hide Congruent, Signed, Negate;
    SignedProduct(a, b, u, v, na, nb);
    if na != nb {
      CongNeg(m, prod, u * v);
      CongTrans(m, Negate(m, prod), 0 - prod, a * b);
      CongTrans(m, Signed(m, Negate(m, prod)), Negate(m, prod), a * b);
    } else {
      CongTrans(m, Signed(m, prod), prod, a * b);
    }
  }
}
