/** `__qdivrem` (common/gcc-millicode/qdivrem.c), for every half-word width h: a long long has
    four h-bit digits.  The pointers u, v and q of the source are offsets uo, vo and qo into
    uspace, vspace and qspace. */
module Qdivrem {
  import opened Words
  import opened Digits
  import opened Shifts
  import opened AlgorithmD

  /** The four digits of a long long, split as tmp.ui[H], tmp.ui[L] and then HHALF, LHALF. */
  method SplitDigits(h: nat, x: nat) returns (a: array<nat>)
    requires x < Pow(Pow2(h), 4)
    ensures fresh(a) && a.Length == 5 && a[0] == 0
    ensures AllDigits(Pow2(h), a[..]) && Val(Pow2(h), a[1..5]) == x
  {
    var b := Pow2(h);
    MulPositive(b, b);
    a := new nat[5];
    a[0] := 0;
    var hi, lo := Div(x, b * b), Mod(x, b * b);
    a[1], a[2], a[3], a[4] := HHalf(h, hi), LHalf(h, hi), HHalf(h, lo), LHalf(h, lo);
    PowFour(b);
    DivBound(x, b * b, b * b);
    DivBound(hi, b, b);
    DivBound(lo, b, b);
    DivMod(x, b * b);
    DivMod(hi, b);
    DivMod(lo, b);
    Val4(b, a[..]);
    FourDigits(b, a[1], a[2], a[3], a[4]);
    assert a[1..5] == a[..][1..5];
  }

  lemma PowFour(b: nat)
    ensures Pow(b, 4) == (b * b) * (b * b)
  {
    assert Pow(b, 4) == Pow(b, 2 + 2);
    PowAdd(b, 2, 2);
    assert Pow(b, 2) == b * Pow(b, 1) && Pow(b, 1) == b * Pow(b, 0) == b;
  }

  lemma Val4(b: nat, s: seq<nat>)
    requires |s| == 5
    ensures Val(b, s[1..5]) == ((s[1] * b + s[2]) * b + s[3]) * b + s[4]
  {
    assert s[1..5] == s[1..4] + [s[4]];
    ValAppend(b, s[1..4], s[4]);
    Val3(b, s, 1);
  }

  lemma FourDigits(b: nat, x1: nat, x2: nat, x3: nat, x4: nat)
    ensures ((x1 * b + x2) * b + x3) * b + x4 == (x1 * b + x2) * (b * b) + (x3 * b + x4)
  {
    assert ((x1 * b + x2) * b + x3) * b == (x1 * b + x2) * b * b + x3 * b;
    assert (x1 * b + x2) * b * b == (x1 * b + x2) * (b * b);
  }

  /** tmp.ui[H] = COMBINE(d1, d2); tmp.ui[L] = COMBINE(d3, d4). */
  function FromDigits(h: nat, d1: nat, d2: nat, d3: nat, d4: nat): (x: nat)
    requires d1 < Pow2(h) && d2 < Pow2(h) && d3 < Pow2(h) && d4 < Pow2(h)
    ensures x == ((d1 * Pow2(h) + d2) * Pow2(h) + d3) * Pow2(h) + d4
  {
    FourDigits(Pow2(h), d1, d2, d3, d4);
    Join(Pow2(h) * Pow2(h), Combine(h, d1, d2), Combine(h, d3, d4))
  }

  /** The one-digit divisor, per exercise 16: q[j] = (r * B + u[j]) / v, r = (r * B + u[j]) % v. */
  method ShortDivide(h: nat, u: array<nat>, t: nat) returns (q: nat, r: nat)
    requires u.Length == 5 && AllDigits(Pow2(h), u[..]) && 0 < t < Pow2(h)
    ensures Val(Pow2(h), u[1..5]) == q * t + r && r < t
  {
    hide Val, Pow2;
    ghost var b := Pow2(h);
    ZeroTimes(b);
    var q1, r1 := ShortStep(h, 0, u[1], t);
    var q2, r2 := ShortStep(h, r1, u[2], t);
    var q3, r3 := ShortStep(h, r2, u[3], t);
    var q4, r4 := ShortStep(h, r3, u[4], t);
    q := FromDigits(h, q1, q2, q3, q4);
    r := r4;
    Val4(b, u[..]);
    assert u[1..5] == u[..][1..5];
    ShortSum(b, t, u[1], u[2], u[3], u[4], q1, q2, q3, q4, r1, r2, r3, r4);
  }

  lemma ZeroTimes(b: nat)
    ensures 0 * b == 0
  {
  }

  lemma ShortSum(b: nat, t: nat, u1: nat, u2: nat, u3: nat, u4: nat,
                 q1: nat, q2: nat, q3: nat, q4: nat, r1: nat, r2: nat, r3: nat, r4: nat)
    requires u1 == q1 * t + r1 && r1 * b + u2 == q2 * t + r2
    requires r2 * b + u3 == q3 * t + r3 && r3 * b + u4 == q4 * t + r4
    ensures ((u1 * b + u2) * b + u3) * b + u4 == (((q1 * b + q2) * b + q3) * b + q4) * t + r4
  {
    Telescope(b, t, u1, q2, r1, u2, r2, q1);
    Telescope(b, t, u1 * b + u2, q3, r2, u3, r3, q1 * b + q2);
    Telescope(b, t, (u1 * b + u2) * b + u3, q4, r3, u4, r4, (q1 * b + q2) * b + q3);
  }

  /** rbj = COMBINE(r, d); the quotient digit fits because r < t. */
  method ShortStep(h: nat, r: nat, d: nat, t: nat) returns (q: nat, r': nat)
    requires r < t < Pow2(h) && d < Pow2(h)
    ensures q < Pow2(h) && r' < t && r * Pow2(h) + d == q * t + r'
  {
    var rbj := Combine(h, r, d);
    q, r' := Div(rbj, t), Mod(rbj, t);
    DivMod(rbj, t);
    ScaledLess(Pow2(h), r, t, d);
    assert t * Pow2(h) == Pow2(h) * t;
    DivBound(rbj, t, Pow2(h));
  }

  lemma Telescope(b: nat, t: nat, u: nat, q': nat, r: nat, d: nat, r': nat, q: nat)
    requires u == q * t + r && r * b + d == q' * t + r'
    ensures u * b + d == (q * b + q') * t + r'
  {
    assert (q * t + r) * b == q * b * t + r * b;
    assert (q * b + q') * t == q * b * t + q' * t;
  }

  // ---- Long division ----

  lemma SkipZeros(b: nat, s: seq<nat>, i: nat, k: nat)
    requires i <= k <= |s| && forall x :: i <= x < k ==> s[x] == 0
    ensures Val(b, s[i..]) == Val(b, s[k..])
  {
    ValSplit(b, s[i..], k - i);
    assert s[i..][..k - i] == s[i..k] && s[i..][k - i..] == s[k..];
    ValZeros(b, s[i..k]);
    ZeroTimes(Pow(b, |s| - k));
  }

  lemma SuffixDigits(b: nat, s: seq<nat>, i: nat)
    requires i <= |s| && AllDigits(b, s)
    ensures AllDigits(b, s[i..])
  {
  }

  /** D1: choose the multiplier 1 << d so that the leading divisor digit is at least B/2. */
  method NormaliseCount(h: nat, v1: nat) returns (d: nat)
    requires h >= 1 && 0 < v1 < Pow2(h)
    ensures d < h && v1 * Pow2(d) < Pow2(h) <= 2 * (v1 * Pow2(d))
  {
    d := 0;
    var t := v1;
    while t < Pow2(h) / 2
      invariant t == v1 * Pow2(d) && d < h && 0 < t < Pow2(h) && Pow2(d) <= t
      decreases Pow2(h) - t
    {
      assert v1 * Pow2(d + 1) == 2 * (v1 * Pow2(d));
      t := 2 * t;
      d := d + 1;
      if d >= h {
        Pow2Monotone(h, d);
      }
    }
  }

  /** D1: multiplies u[0..m+n] and v[1..n] by 2^d. */
  method Normalise(h: nat, u: array<nat>, uo: nat, v: array<nat>, vo: nat) returns (d: nat)
    requires h >= 1 && u != v && u.Length == v.Length == 5 && uo < 4 && vo < 4
    requires AllDigits(Pow2(h), u[..]) && AllDigits(Pow2(h), v[..]) && u[uo] == 0 && v[vo + 1] != 0
    modifies u, v
    ensures AllDigits(Pow2(h), u[..]) && AllDigits(Pow2(h), v[..]) && d < h
    ensures forall k :: 0 <= k < uo ==> u[k] == old(u[k])
    ensures Val(Pow2(h), u[uo..]) == Val(Pow2(h), old(u[..])[uo..]) * Pow2(d)
    ensures Val(Pow2(h), v[vo + 1..]) == Val(Pow2(h), old(v[..])[vo + 1..]) * Pow2(d)
    ensures Pow2(h) <= 2 * v[vo + 1]
  {
    hide Val, Pow, Pow2;
    ghost var v0 := v[..];
    d := NormaliseCount(h, v[vo + 1]);
    NoBits(h, d);
    NormaliseOne(h, u, uo, d);
    NormaliseOne(h, v, vo + 1, d);
    LeadingShifted(h, v0[vo + 1..], v[vo + 1..], d);
  }

  lemma NoBits(h: nat, d: nat)
    ensures 0 * Pow2(d) < Pow2(h)
  {
  }

  /** One of the two operands, whose leading digit has room for the shift. */
  method NormaliseOne(h: nat, a: array<nat>, lo: nat, d: nat)
    requires d < h && a.Length == 5 && lo < 5 && AllDigits(Pow2(h), a[..]) && a[lo] * Pow2(d) < Pow2(h)
    modifies a
    ensures AllDigits(Pow2(h), a[..]) && forall k :: 0 <= k < lo ==> a[k] == old(a[k])
    ensures Val(Pow2(h), a[lo..]) == Val(Pow2(h), old(a[..])[lo..]) * Pow2(d)
  {
    ghost var a0, b := a[..], Pow2(h);
    if d > 0 {
      TopBitsZero(h, a[lo], d);
      hide Val, Pow, Pow2;
      ShiftLeft(h, a, lo, 4 - lo, d);
      ZeroTimes(Pow(b, 5 - lo));
      assert a[lo..5] == a[lo..] && a0[lo..5] == a0[lo..];
    } else {
      assert a[lo..] == a0[lo..];
    }
  }

  lemma TopBitsZero(h: nat, x: nat, d: nat)
    requires d <= h && x * Pow2(d) < Pow2(h)
    ensures Div(x, Pow2(h - d)) == 0
  {
    Pow2Add(h - d, d);
    MulLtCancel(x, Pow2(h - d), Pow2(d));
    DivBound(x, Pow2(h - d), 1);
  }

  /** Shifting left without loss multiplies the leading digit by at least 2^d. */
  lemma LeadingShifted(h: nat, s: seq<nat>, s': seq<nat>, d: nat)
    requires |s| == |s'| > 0 && AllDigits(Pow2(h), s') && s[0] * Pow2(d) < Pow2(h)
    requires Val(Pow2(h), s') == Val(Pow2(h), s) * Pow2(d)
    ensures s[0] * Pow2(d) <= s'[0]
  {
    hide Val, Pow, Pow2;
    var b := Pow2(h);
    ValHead(b, s);
    ValHead(b, s');
    ValBound(b, s'[1..]);
    LeadingOrder(s[0], Val(b, s[1..]), s'[0], Val(b, s'[1..]), Pow(b, |s| - 1), Pow2(d));
  }

  lemma LeadingOrder(x: nat, xs: nat, y: nat, ys: nat, p: nat, e: nat)
    requires p > 0 && ys < p && y * p + ys == (x * p + xs) * e
    ensures x * e <= y
  {
    Distribute(x, p, xs, e);
    MulPositive(xs, e);
    assert x * (p * e) == x * e * p;
    assert (y + 1) * p == y * p + p;
    MulLtCancel(x * e, y + 1, p);
  }

  /** State of the D loop before quotient digit j: uq is the normalised dividend, vn the
      normalised divisor, and the digits of q found so far account for what is gone from u. */
  ghost predicate LoopState(b: nat, u: seq<nat>, uo: nat, q: seq<nat>, qo: nat, m: nat, n: nat, j: nat, uq: nat,
                            vn: nat)
  {
    && LoopShape(b, u, uo, q, qo, m, n, j)
    && LoopValue(b, u[uo + j..], q[qo..qo + j], m + 1 - j, uq, vn)
    && Val(b, u[uo + j..uo + j + n]) < vn
  }

  ghost predicate LoopShape(b: nat, u: seq<nat>, uo: nat, q: seq<nat>, qo: nat, m: nat, n: nat, j: nat)
  {
    && |u| == |q| == 5 && uo + m + n == 4 && qo + m == 4 && j <= m + 1 && 2 <= n
    && AllDigits(b, u) && AllDigits(b, q)
    && (forall k :: 0 <= k < uo + j ==> u[k] == 0)
    && (forall k :: 0 <= k < qo ==> q[k] == 0)
  }

  ghost predicate LoopValue(b: nat, rest: seq<nat>, qs: seq<nat>, left: nat, uq: nat, vn: nat)
  {
    uq == Mul3(Val(b, qs), Pow(b, left), vn) + Val(b, rest)
  }

  ghost function Mul3(x: int, y: int, z: int): (r: int)
  {
    x * y * z
  }

  /** One pass keeps the loop state. */
  lemma LoopAdvance(b: nat, u: seq<nat>, u': seq<nat>, uo: nat, q: seq<nat>, qo: nat, m: nat, n: nat, j: nat,
                    uq: nat, vn: nat, digit: nat)
    requires LoopState(b, u, uo, q, qo, m, n, j, uq, vn) && j <= m && digit < b && b >= 1
    requires |u'| == 5 && AllDigits(b, u')
    requires forall k :: 0 <= k < 5 && !(uo + j <= k <= uo + j + n) ==> u'[k] == u[k]
    requires Val(b, u[uo + j..uo + j + n + 1]) == digit * vn + Val(b, u'[uo + j..uo + j + n + 1])
    requires Val(b, u'[uo + j..uo + j + n + 1]) < vn < Pow(b, n)
    ensures LoopState(b, u', uo, q[qo + j := digit], qo, m, n, j + 1, uq, vn)
  {
    hide LoopValue, Val;
    var lo := uo + j;
    var q' := q[qo + j := digit];
    WindowAdvance(b, u, u', lo, n, vn, digit);
    ShapeAdvance(b, u, u', uo, q, qo, m, n, j, digit);
    assert q'[qo..qo + j + 1] == q[qo..qo + j] + [digit];
    ValueAdvance(b, u[lo..], u'[lo + 1..], q[qo..qo + j], digit, m - j, uq, vn);
  }

  lemma ShapeAdvance(b: nat, u: seq<nat>, u': seq<nat>, uo: nat, q: seq<nat>, qo: nat, m: nat, n: nat, j: nat,
                     digit: nat)
    requires LoopShape(b, u, uo, q, qo, m, n, j) && j <= m && digit < b
    requires |u'| == 5 && AllDigits(b, u') && u'[uo + j] == 0
    requires forall k :: 0 <= k < 5 && !(uo + j <= k <= uo + j + n) ==> u'[k] == u[k]
    ensures LoopShape(b, u', uo, q[qo + j := digit], qo, m, n, j + 1)
  {
  }

  lemma ValueAdvance(b: nat, rest: seq<nat>, rest': seq<nat>, qs: seq<nat>, digit: nat, left: nat, uq: nat, vn: nat)
    requires LoopValue(b, rest, qs, left + 1, uq, vn)
    requires Val(b, rest) == Mul3(digit, vn, Pow(b, left)) + Val(b, rest')
    ensures LoopValue(b, rest', qs + [digit], left, uq, vn)
  {
    ValAppend(b, qs, digit);
    PowStep(b, left);
    QuotientSum(b, Val(b, qs), Val(b, qs + [digit]), Pow(b, left + 1), Pow(b, left), vn, digit);
  }

  lemma PowStep(b: nat, k: nat)
    ensures Pow(b, k + 1) == b * Pow(b, k)
  {
  }

  /** Effect of a pass on the digits it rewrites. */
  lemma WindowAdvance(b: nat, u: seq<nat>, u': seq<nat>, lo: nat, n: nat, vn: nat, digit: nat)
    requires |u| == |u'| && lo + n < |u| && AllDigits(b, u') && b >= 1
    requires forall k :: 0 <= k < |u| && !(lo <= k <= lo + n) ==> u'[k] == u[k]
    requires Val(b, u[lo..lo + n + 1]) == digit * vn + Val(b, u'[lo..lo + n + 1])
    requires Val(b, u'[lo..lo + n + 1]) < vn < Pow(b, n)
    ensures u'[lo] == 0 && Val(b, u'[lo + 1..lo + n + 1]) < vn
    ensures Val(b, u[lo..]) == Mul3(digit, vn, Pow(b, |u| - lo - n - 1)) + Val(b, u'[lo + 1..])
  {
    var e := lo + n + 1;
    var w := u'[lo..e];
    LeadingZeros(b, w, n);
    assert w[0] == 0 && w[1..] == u'[lo + 1..e];
    SplitAt(b, u, lo, e);
    SplitAt(b, u', lo, e);
    assert u'[e..] == u[e..];
    SkipZeros(b, u', lo, lo + 1);
    DistributeOver(digit * vn, Val(b, w), Pow(b, |u| - e));
  }

  lemma DistributeOver(x: int, y: int, p: int)
    ensures (x + y) * p == x * p + y * p
  {
  }

  lemma SplitAt(b: nat, s: seq<nat>, i: nat, e: nat)
    requires i <= e <= |s|
    ensures Val(b, s[i..]) == Val(b, s[i..e]) * Pow(b, |s| - e) + Val(b, s[e..])
  {
    ValSplit(b, s[i..], e - i);
    assert s[i..][..e - i] == s[i..e] && s[i..][e - i..] == s[e..];
  }

  lemma QuotientSum(b: nat, qs: nat, qs': nat, p': nat, p: nat, vn: nat, digit: nat)
    requires qs' == qs * b + digit && p' == b * p
    ensures Mul3(qs', p, vn) == Mul3(qs, p', vn) + Mul3(digit, vn, p)
  {
    assert (qs * b + digit) * p == qs * (b * p) + digit * p by {
      assert qs * b * p == qs * (b * p);
    }
    assert (qs * (b * p) + digit * p) * vn == qs * (b * p) * vn + digit * p * vn;
    assert digit * p * vn == digit * vn * p;
  }

  /** The D loop: a quotient digit for each j = 0..m. */
  method DivideLoop(h: nat, u: array<nat>, uo: nat, v: array<nat>, vo: nat, q: array<nat>, qo: nat, m: nat, n: nat,
                    ghost uq: nat, ghost vn: nat)
    requires h >= 1 && u != v && u != q && q != v && v.Length == 5 && u.Length == 5 && q.Length == 5 && vo + n == 4
             && 2 <= n
    requires LoopState(Pow2(h), u[..], uo, q[..], qo, m, n, 0, uq, vn)
    requires AllDigits(Pow2(h), v[..]) && Pow2(h) <= 2 * v[vo + 1] && vn == Val(Pow2(h), v[vo + 1..])
    modifies u, q
    ensures LoopState(Pow2(h), u[..], uo, q[..], qo, m, n, m + 1, uq, vn)
  {
    hide LoopState, Ready, Val, Pow;
    ghost var b := Pow2(h);
    ghost var vs := v[..];
    assert v[vo + 1..] == vs[vo + 1..] && vs[vo + 1] == v[vo + 1];
    var j := 0;
    while j <= m
      invariant 0 <= j <= m + 1 && v[..] == vs
      invariant LoopState(b, u[..], uo, q[..], qo, m, n, j, uq, vn)
    {
      ghost var us, qs := u[..], q[..];
      LoopReady(b, us, uo, qs, qo, m, n, j, uq, vn, vs, vo);
      var digit, _, _, _ := DivideStep(h, u, uo + j, v, vo, n);
      assert u[uo + j..uo + j + n + 1] == u[..][uo + j..uo + j + n + 1];
      assert v[vo + 1..vo + n + 1] == vs[vo + 1..vo + n + 1];
      LoopAdvance(b, us, u[..], uo, qs, qo, m, n, j, uq, vn, digit);
      q[qo + j] := digit;
      assert q[..] == qs[qo + j := digit];
      j := j + 1;
    }
  }

  lemma LoopReady(b: nat, u: seq<nat>, uo: nat, q: seq<nat>, qo: nat, m: nat, n: nat, j: nat, uq: nat, vn: nat,
                  vs: seq<nat>, vo: nat)
    requires LoopState(b, u, uo, q, qo, m, n, j, uq, vn) && j <= m && b >= 1
    requires |vs| == 5 && vo + n == 4 && AllDigits(b, vs) && b <= 2 * vs[vo + 1] && vn == Val(b, vs[vo + 1..])
    ensures Ready(b, u, uo + j, vs, vo, n) && vs[vo + 1..] == vs[vo + 1..vo + n + 1]
    ensures vn < Pow(b, n) && uo + j + n < 5 && qo + j < 5 && |q| == |u| == 5
  {
    ValBound(b, vs[vo + 1..]);
    assert vs[vo + 1..] == vs[vo + 1..vo + n + 1];
  }

  /** Undoing the normalisation on quotient and remainder. */
  lemma Denormalise(u: nat, v: nat, e: nat, q: nat, rn: nat)
    requires e > 0 && u * e == q * (v * e) + rn && rn < v * e
    ensures u >= q * v && rn == (u - q * v) * e && u - q * v < v
  {
    assert q * (v * e) == q * v * e;
    assert (u - q * v) * e == rn;
    MulLtCancel(u - q * v, v, e);
    if u < q * v {
      MulLe(u + 1, q * v, e);
    }
  }

  /** Divisors of at least two digits. */
  method LongDivide(h: nat, u: array<nat>, v: array<nat>, vo: nat, n: nat, ghost ull: nat, ghost vll: nat)
    returns (quot: nat, rem: nat)
    requires h >= 1 && u != v && u.Length == v.Length == 5 && vo + n == 4 && 2 <= n
    requires AllDigits(Pow2(h), u[..]) && AllDigits(Pow2(h), v[..]) && u[0] == 0 && v[vo + 1] != 0
    requires Val(Pow2(h), u[1..]) == ull && Val(Pow2(h), v[vo + 1..]) == vll <= ull
    modifies u, v
    ensures ull == quot * vll + rem && rem < vll
  {
    ghost var b, u0, v0 := Pow2(h), u[..], v[..];
    assert u0[1..] == u[1..] && v0[vo + 1..] == v[vo + 1..];
    var uo, m := SkipLeadingZeros(h, u, n, ull, vll, v0, vo);
    var q := new nat[5](i => 0);
    assert u[..] == u0 && v[..] == v0;
    SkipZeros(b, u0, uo, uo + 1);
    SuffixDigits(b, u0, uo + 1);
    LeadingQuotient(b, u0[uo + 1..], v0[vo + 1..], m);
    var d := Normalise(h, u, uo, v, vo);
    ghost var e := Pow2(d);
    MulPositive(vll, e);
    MulPositive(ull, e);
    assert u[uo..] == u[..][uo..];
    LoopStart(b, u[..], uo, q[..], 4 - m, m, n, ull, vll, e);
    DivideLoop(h, u, uo, v, vo, q, 4 - m, m, n, ull * e, vll * e);
    quot, rem := Collect(h, u, uo, q, 4 - m, m, n, d, ull, vll);
  }

  /** Moves u past its leading zero digits: `for (m = 4 - n; u[1] == 0; u++) m--`. */
  method SkipLeadingZeros(h: nat, u: array<nat>, n: nat, ghost ull: nat, ghost vll: nat, ghost vs: seq<nat>,
                          ghost vo: nat)
    returns (uo: nat, m: nat)
    requires u.Length == |vs| == 5 && vo + n == 4 && 2 <= n
    requires AllDigits(Pow2(h), u[..]) && u[0] == 0 && vs[vo + 1] != 0
    requires Val(Pow2(h), u[1..]) == ull && Val(Pow2(h), vs[vo + 1..]) == vll <= ull
    ensures uo + m + n == 4 && u[uo + 1] != 0
    ensures forall k :: 0 <= k <= uo ==> u[k] == 0
    ensures Val(Pow2(h), u[..][uo + 1..]) == ull
  {
    ghost var b := Pow2(h);
    m, uo := 4 - n, 0;
    assert u[1..] == u[..][1..];
    while u[uo + 1] == 0
      invariant uo + m + n == 4 && forall k :: 0 <= k <= uo ==> u[k] == 0
      invariant Val(b, u[..][uo + 1..]) == ull
      decreases m
    {
      EnoughDigits(b, u[..], uo, vs, vo, n, m, ull, vll);
      SkipZeros(b, u[..], uo + 1, uo + 2);
      uo, m := uo + 1, m - 1;
    }
  }

  /** If u[1] is zero and no digits are left to skip, then u < v. */
  lemma EnoughDigits(b: nat, u: seq<nat>, uo: nat, vs: seq<nat>, vo: nat, n: nat, m: int, ull: nat, vll: nat)
    requires |u| == |vs| == 5 && AllDigits(b, u) && b >= 1 && vo + n == 4 && 2 <= n && uo + m + n == 4
    requires 0 <= m && u[uo + 1] == 0 && vs[vo + 1] != 0
    requires Val(b, u[uo + 1..]) == ull && Val(b, vs[vo + 1..]) == vll <= ull
    ensures m > 0
  {
    if m == 0 {
      SkipZeros(b, u, uo + 1, uo + 2);
      ValBound(b, u[uo + 2..]);
      assert vs[vo + 1..][0] == vs[vo + 1];
      MulLe(1, vs[vo + 1], Pow(b, n - 1));
    }
  }

  /** Before normalisation, u < b^(m+1) * v. */
  lemma LeadingQuotient(b: nat, us: seq<nat>, vs: seq<nat>, m: nat)
    requires AllDigits(b, us) && b >= 1 && |vs| >= 1 && |us| == m + |vs| && vs[0] != 0
    ensures Val(b, us) < Pow(b, m + 1) * Val(b, vs)
  {
    var p := Pow(b, |vs| - 1);
    ValBound(b, us);
    PowAdd(b, m + 1, |vs| - 1);
    MulLe(1, vs[0], p);
    MulLe(p, Val(b, vs), Pow(b, m + 1));
    assert p * Pow(b, m + 1) == Pow(b, m + 1) * p;
    assert Val(b, vs) * Pow(b, m + 1) == Pow(b, m + 1) * Val(b, vs);
  }

  lemma LoopStart(b: nat, u: seq<nat>, uo: nat, q: seq<nat>, qo: nat, m: nat, n: nat, ull: nat, vll: nat, e: nat)
    requires |u| == |q| == 5 && uo + m + n == 4 && qo + m == 4 && 2 <= n && b >= 1 && e > 0
    requires AllDigits(b, u) && (forall k :: 0 <= k < uo ==> u[k] == 0) && (forall k :: 0 <= k < 5 ==> q[k] == 0)
    requires Val(b, u[uo..]) == ull * e && ull < Pow(b, m + 1) * vll
    ensures vll * e >= 0 && ull * e >= 0
    ensures LoopState(b, u, uo, q, qo, m, n, 0, ull * e, vll * e)
  {
    MulPositive(vll, e);
    SplitAt(b, u, uo, uo + n);
    assert q[qo..qo] == [];
    EmptyQuotient(Pow(b, m + 1), vll * e);
    ScaledBound(ull, Pow(b, m + 1), vll, e, Val(b, u[uo..uo + n]), Val(b, u[uo + n..]));
  }

  lemma EmptyQuotient(p: nat, vn: nat)
    ensures Mul3(0, p, vn) == 0
  {
  }

  lemma ScaledBound(u: nat, p: nat, v: nat, e: nat, top: nat, rest: nat)
    requires e > 0 && p > 0 && u < p * v && u * e == top * p + rest
    ensures top < v * e
  {
    MulLe(u + 1, p * v, e);
    assert (u + 1) * e == u * e + e;
    assert p * v * e == v * e * p;
    MulLtCancel(top, v * e, p);
  }

  /** Reads the quotient out of qspace and the remainder, shifted back, out of uspace. */
  method Collect(h: nat, u: array<nat>, uo: nat, q: array<nat>, qo: nat, m: nat, n: nat, d: nat,
                 ghost ull: nat, ghost vll: nat)
    returns (quot: nat, rem: nat)
    requires h >= 1 && u != q && d < h && 0 <= ull * Pow2(d) && 0 <= vll * Pow2(d) && u.Length == q.Length == 5
    requires LoopState(Pow2(h), u[..], uo, q[..], qo, m, n, m + 1, ull * Pow2(d), vll * Pow2(d))
    modifies u
    ensures ull == quot * vll + rem && rem < vll
  {
    quot := JoinDigits(h, q);
    QuotientValue(Pow2(h), u[..], uo, q[..], qo, m, n, ull, vll, Pow2(d), quot);
    rem := Remainder(h, u, uo + m, n, d, ull - quot * vll);
  }

  /** `*arq`: u[m..m+n] >> d. */
  method Remainder(h: nat, u: array<nat>, lo: nat, n: nat, d: nat, ghost r: nat) returns (rem: nat)
    requires h >= 1 && d < h && u.Length == 5 && lo + n == 4 && 0 < n && AllDigits(Pow2(h), u[..])
    requires forall k :: 0 <= k <= lo ==> u[k] == 0
    requires Val(Pow2(h), u[..][lo + 1..]) == r * Pow2(d)
    modifies u
    ensures rem == r
  {
    ghost var b, e, u0 := Pow2(h), Pow2(d), u[..];
    if d > 0 {
      ShiftRight(h, u, lo, n, d);
      assert u[lo + 1..lo + n + 1] == u[..][lo + 1..];
      assert u0[lo + 1..lo + n + 1] == u0[lo + 1..];
      DivMod(u0[lo + n], e);
      UniqueRemainder(Val(b, u[..][lo + 1..]), u0[lo + n] % e, r, e);
    } else {
      TimesOne(r, e);
    }
    SkipZeros(b, u[..], 1, lo + 1);
    rem := JoinDigits(h, u);
  }

  method JoinDigits(h: nat, a: array<nat>) returns (x: nat)
    requires a.Length == 5 && AllDigits(Pow2(h), a[..])
    ensures x == Val(Pow2(h), a[..][1..])
  {
    x := FromDigits(h, a[1], a[2], a[3], a[4]);
    Val4(Pow2(h), a[..]);
    assert a[..][1..5] == a[..][1..];
  }

  lemma TimesOne(r: nat, e: nat)
    requires e == 1
    ensures r * e == r
  {
  }

  lemma UniqueRemainder(x: nat, low: int, r: nat, e: nat)
    requires e > 0 && x * e + low == r * e && 0 <= low < e
    ensures x == r
  {
    DivUnique(r * e, e, x, low);
    DivUnique(r * e, e, r, 0);
  }

  /** At the end of the D loop, q is the quotient and u holds the scaled remainder. */
  lemma QuotientValue(b: nat, u: seq<nat>, uo: nat, q: seq<nat>, qo: nat, m: nat, n: nat, ull: nat, vll: nat, e: nat,
                      quot: nat)
    requires e > 0 && 0 <= ull * e && 0 <= vll * e
    requires LoopState(b, u, uo, q, qo, m, n, m + 1, ull * e, vll * e)
    requires quot == Val(b, q[1..])
    ensures ull >= quot * vll && ull - quot * vll < vll
    ensures Val(b, u[uo + m + 1..]) == (ull - quot * vll) * e
  {
    SkipZeros(b, q, 1, qo);
    assert q[qo..] == q[qo..qo + m + 1];
    assert u[uo + m + 1..uo + m + 1 + n] == u[uo + m + 1..];
    assert Mul3(quot, Pow(b, 0), vll * e) == quot * (vll * e);
    Denormalise(ull, vll, e, quot, Val(b, u[uo + m + 1..]));
  }

  /** u / v and u % v for every dividend and nonzero divisor of four digits. */
  method Qdivrem(h: nat, ull: nat, vll: nat) returns (quot: nat, rem: nat)
    requires h >= 1 && ull < Pow(Pow2(h), 4) && 0 < vll < Pow(Pow2(h), 4)
    ensures ull == quot * vll + rem && rem < vll
  {
    if ull < vll {
      ZeroTimes(vll);
      return 0, ull;
    }
    ghost var b := Pow2(h);
    var u := SplitDigits(h, ull);
    var v := SplitDigits(h, vll);
    var n, vo := 4, 0;
    assert v[1..] == v[1..5] && u[1..] == u[1..5];
    while v[vo + 1] == 0
      invariant vo + n == 4 && 2 <= n
      invariant Val(b, v[vo + 1..]) == vll
      invariant u != v && AllDigits(b, v[..]) && AllDigits(b, u[..]) && u[0] == 0 && Val(b, u[1..]) == ull
      decreases n
    {
      SkipZeros(b, v[..], vo + 1, vo + 2);
      assert v[..][vo + 1..] == v[vo + 1..] && v[..][vo + 2..] == v[vo + 2..];
      n := n - 1;
      if n == 1 {
        assert v[4..] == [v[4]];
        ValOne(b, v[4]);
        assert u[1..] == u[1..5];
        quot, rem := ShortDivide(h, u, v[vo + 2]);
        return;
      }
      vo := vo + 1;
    }
    quot, rem := LongDivide(h, u, v, vo, n, ull, vll);
  }
}
