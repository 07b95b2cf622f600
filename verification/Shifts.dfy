/** Shifting a digit array left (`shl`) and right (the remainder) by less than one digit,
    common/gcc-millicode/qdivrem.c. */
module Shifts {
  import opened Words
  import opened Digits

  /** What one digit contributes to itself and to the digit on its left when shifted. */
  lemma ShiftDigit(h: nat, x: nat, sh: nat)
    requires x < Pow2(h) && sh <= h
    ensures x * Pow2(sh) < Pow2(h) * Pow2(h)
    ensures LHalf(h, Shl(h, x, sh)) == (x % Pow2(h - sh)) * Pow2(sh)
    ensures (x / Pow2(h - sh)) * Pow2(h) + (x % Pow2(h - sh)) * Pow2(sh) == x * Pow2(sh)
    ensures 0 <= x / Pow2(h - sh) < Pow2(sh)
  {
    Pow2Add(h - sh, sh);
    Pow2Monotone(sh, h);
    ShiftParts(x, Pow2(h - sh), Pow2(sh), Pow2(h));
  }

  lemma ShiftParts(x: nat, c: nat, p: nat, b: nat)
    requires c > 0 && p > 0 && b == c * p && x < b && p <= b
    ensures x * p < b * b
    ensures (x / c) * b + (x % c) * p == x * p
    ensures x * p % b == (x % c) * p
    ensures 0 <= x / c < p
  {
    var y, z := x / c, x % c;
    DivMod(x, c);
    ShiftedParts(x, y, z, c, p, b);
    DivUnique(x * p, b, y, z * p);
    BelowFactor(x, c, p, b);
    ProductBelow(x, p, b);
  }

  lemma ShiftedParts(x: nat, y: nat, z: nat, c: nat, p: nat, b: nat)
    requires x == y * c + z && z < c && p > 0 && b == c * p
    ensures y * b + z * p == x * p && 0 <= z * p < b
  {
    Distribute(y, c, z, p);
    MulPositive(z, p);
    MulLe(z, c - 1, p);
    assert (c - 1) * p == c * p - p;
  }

  lemma BelowFactor(x: nat, c: nat, p: nat, b: nat)
    requires c > 0 && b == c * p && x < b
    ensures 0 <= x / c < p
  {
    assert c * p == p * c;
    DivBound(x, c, p);
  }

  lemma ProductBelow(x: nat, p: nat, b: nat)
    requires x < b && p <= b && p > 0
    ensures x * p < b * b
  {
    MulLe(x + 1, b, p);
    MulLe(p, b, b);
    assert (x + 1) * p == x * p + p;
    assert b * p == p * b;
  }

  /** `shl(p, len, sh)` on p[0..len] = a[p..p+len]: no bit is lost except off the top digit. */
  method ShiftLeft(h: nat, a: array<nat>, p: nat, len: nat, sh: nat)
    requires 0 < sh <= h && p + len < a.Length && AllDigits(Pow2(h), a[..])
    modifies a
    ensures AllDigits(Pow2(h), a[..])
    ensures forall k :: 0 <= k < a.Length && !(p <= k <= p + len) ==> a[k] == old(a[k])
    ensures Val(Pow2(h), a[p..p + len + 1]) + Div(old(a[p]), Pow2(h - sh)) * Pow(Pow2(h), len + 1)
         == Val(Pow2(h), old(a[..])[p..p + len + 1]) * Pow2(sh)
  {
    hide Val, Pow, Pow2, Div, ShiftedDigit, ShiftedLast;
    ghost var b := Pow2(h);
    ghost var u := a[..];
    ghost var top := Div(a[p], Pow2(h - sh));
    ShiftStart(h, u, p, sh);
    var i := 0;
    while i < len
      invariant 0 <= i <= len
      invariant AllDigits(b, a[..])
      invariant forall k :: 0 <= k < a.Length && !(p <= k < p + i) ==> a[k] == u[k]
      invariant ShiftState(h, a[..], u, p, i, sh, top)
    {
      ghost var before := a[..];
      a[p + i] := ShiftedDigit(h, a[p + i], a[p + i + 1], sh);
      ShiftAdvance(h, before, a[..], u, p, i, sh, top, Div(u[p + i + 1], Pow2(h - sh)));
      i := i + 1;
    }
    ghost var before := a[..];
    a[p + i] := ShiftedLast(h, a[p + i], sh);
    ShiftAdvance(h, before, a[..], u, p, i, sh, top, 0);
    assert a[p..p + len + 1] == a[..][p..p + len + 1];
  }

  /** `LHALF(x << sh) | (next >> (HALF_BITS - sh))`: the or never carries. */
  function ShiftedDigit(h: nat, x: nat, next: nat, sh: nat): (r: nat)
    requires x < Pow2(h) && next < Pow2(h) && sh <= h
    ensures r == (x % Pow2(h - sh)) * Pow2(sh) + Div(next, Pow2(h - sh)) && r < Pow2(h)
  {
    ShiftDigit(h, x, sh);
    ShiftDigit(h, next, sh);
    OrLow(x % Pow2(h - sh), Div(next, Pow2(h - sh)), sh);
    DigitRoom(h, x, sh, Div(next, Pow2(h - sh)));
    Or(LHalf(h, Shl(h, x, sh)), Div(next, Pow2(h - sh)))
  }

  function ShiftedLast(h: nat, x: nat, sh: nat): (r: nat)
    requires x < Pow2(h) && sh <= h
    ensures r == (x % Pow2(h - sh)) * Pow2(sh) && r < Pow2(h)
  {
    ShiftDigit(h, x, sh);
    LHalf(h, Shl(h, x, sh))
  }

  lemma DigitRoom(h: nat, x: nat, sh: nat, c: nat)
    requires sh <= h && c < Pow2(sh)
    ensures (x % Pow2(h - sh)) * Pow2(sh) + c < Pow2(h)
  {
    Pow2Add(h - sh, sh);
    RoomBelow(x % Pow2(h - sh), Pow2(h - sh), Pow2(sh), c);
  }

  lemma RoomBelow(z: nat, d: nat, p: nat, c: nat)
    requires z < d && c < p
    ensures z * p + c < d * p
  {
    MulLe(z, d - 1, p);
    assert (d - 1) * p == d * p - p;
  }

  /** p[0..i) hold their shifted digits; `carry` bits of p[i] have moved left into them. */
  ghost predicate ShiftState(h: nat, s: seq<nat>, u: seq<nat>, p: nat, i: nat, sh: nat, top: nat)
    requires sh <= h && p + i < |s| == |u|
  {
    Val(Pow2(h), s[p..p + i]) + top * Pow(Pow2(h), i)
    == Val(Pow2(h), u[p..p + i]) * Pow2(sh) + Div(u[p + i], Pow2(h - sh))
  }

  lemma ShiftStart(h: nat, u: seq<nat>, p: nat, sh: nat)
    requires sh <= h && p < |u|
    ensures ShiftState(h, u, u, p, 0, sh, Div(u[p], Pow2(h - sh)))
  {
    assert u[p..p] == [];
  }

  lemma ShiftAdvance(h: nat, s: seq<nat>, s': seq<nat>, u: seq<nat>, p: nat, i: nat, sh: nat, top: nat, c: nat)
    requires sh <= h && p + i < |s| == |s'| == |u| && s[p + i] == u[p + i] < Pow2(h)
    requires ShiftState(h, s, u, p, i, sh, top)
    requires forall k :: 0 <= k < |s| && k != p + i ==> s'[k] == s[k]
    requires s'[p + i] == (u[p + i] % Pow2(h - sh)) * Pow2(sh) + c
    ensures Val(Pow2(h), s'[p..p + i + 1]) + top * Pow(Pow2(h), i + 1)
         == Val(Pow2(h), u[p..p + i + 1]) * Pow2(sh) + c
  {
    var b, w := Pow2(h), Pow2(sh);
    assert s'[p..p + i + 1] == s[p..p + i] + [s'[p + i]];
    assert u[p..p + i + 1] == u[p..p + i] + [u[p + i]];
    ValAppend(b, s[p..p + i], s'[p + i]);
    ValAppend(b, u[p..p + i], u[p + i]);
    ShiftDigit(h, u[p + i], sh);
    ShiftSum(b, w, Val(b, s[p..p + i]), Val(b, u[p..p + i]), top, Pow(b, i), Div(u[p + i], Pow2(h - sh)),
             u[p + i], (u[p + i] % Pow2(h - sh)) * w);
  }

  lemma ShiftSum(b: nat, w: nat, x: nat, y: nat, top: nat, q: nat, c: nat, d: nat, lo: nat)
    requires x + top * q == y * w + c
    requires c * b + lo == d * w
    ensures x * b + lo + top * (b * q) == (y * b + d) * w
  {
    assert (x + top * q) * b == x * b + top * (b * q);
    assert (y * w + c) * b == y * b * w + c * b;
    assert (y * b + d) * w == y * b * w + d * w;
  }

  /** The remainder loop: shifts u[m+1..m+n] right by d, taking bits from the digit to the
      left, where u[i] is a[lo + i]; then u[m] is cleared. */
  method ShiftRight(h: nat, a: array<nat>, lo: nat, n: nat, d: nat)
    requires 0 < d <= h && 0 < n && lo + n < a.Length && AllDigits(Pow2(h), a[..]) && a[lo] == 0
    modifies a
    ensures AllDigits(Pow2(h), a[..]) && a[lo] == 0
    ensures forall k :: 0 <= k < a.Length && !(lo <= k <= lo + n) ==> a[k] == old(a[k])
    ensures Val(Pow2(h), a[lo + 1..lo + n + 1]) * Pow2(d) + old(a[lo + n]) % Pow2(d)
         == Val(Pow2(h), old(a[..])[lo + 1..lo + n + 1])
  {
    ghost var b := Pow2(h);
    ghost var u := a[..];
    assert a[..][lo + n + 1..lo + n + 1] == u[lo + n + 1..lo + n + 1] == [];
    var i := n;
    assert 0 * Pow2(d) == 0;
    assert UnshiftState(h, a[..], u, lo, n, n, d);
    hide Val, Pow;
    while i > 0
      invariant 0 <= i <= n
      invariant AllDigits(b, a[..])
      invariant forall k :: 0 <= k < a.Length && !(lo + i < k <= lo + n) ==> a[k] == u[k]
      invariant UnshiftState(h, a[..], u, lo, n, i, d)
    {
      ghost var before := a[..];
      UnshiftDigit(h, a[lo + i], a[lo + i - 1], d);
      a[lo + i] := Or(Div(a[lo + i], Pow2(d)), LHalf(h, Shl(h, a[lo + i - 1], h - d)));
      UnshiftAdvance(h, before, a[..], u, lo, n, i, d);
      i := i - 1;
    }
    ghost var done := a[..];
    a[lo + i] := 0;
    assert a[lo + 1..lo + n + 1] == a[..][lo + 1..lo + n + 1] == done[lo + 1..lo + n + 1];
    ModZero(Pow2(d));
    assert 0 * Pow(b, n) == 0;
  }

  lemma ModZero(m: nat)
    requires m > 0
    ensures 0 % m == 0
  {
  }

  lemma UnshiftDigit(h: nat, x: nat, left: nat, d: nat)
    requires x < Pow2(h) && left < Pow2(h) && 0 < d <= h
    ensures Or(Div(x, Pow2(d)), LHalf(h, Shl(h, left, h - d)))
            == Div(x, Pow2(d)) + (left % Pow2(d)) * Pow2(h - d) < Pow2(h)
  {
    ShiftDigit(h, left, h - d);
    Pow2Add(d, h - d);
    assert Pow2(d) * Pow2(h - d) == Pow2(h - d) * Pow2(d);
    DivBound(x, Pow2(d), Pow2(h - d));
    OrLow(left % Pow2(d), Div(x, Pow2(d)), h - d);
    OrComm(Div(x, Pow2(d)), (left % Pow2(d)) * Pow2(h - d));
    DigitRoom(h, left, h - d, Div(x, Pow2(d)));
  }

  /** Digits i+1..n are shifted; the low bits of u[i] have already been handed to u[i+1]. */
  ghost predicate UnshiftState(h: nat, s: seq<nat>, u: seq<nat>, lo: nat, n: nat, i: nat, d: nat)
    requires i <= n && lo + n < |s| == |u|
  {
    Val(Pow2(h), s[lo + i + 1..lo + n + 1]) * Pow2(d) + u[lo + n] % Pow2(d)
    == Val(Pow2(h), u[lo + i + 1..lo + n + 1]) + (u[lo + i] % Pow2(d)) * Pow(Pow2(h), n - i)
  }

  lemma UnshiftAdvance(h: nat, s: seq<nat>, s': seq<nat>, u: seq<nat>, lo: nat, n: nat, i: nat, d: nat)
    requires 0 < i <= n && 0 < d <= h && lo + n < |s| == |s'| == |u|
    requires UnshiftState(h, s, u, lo, n, i, d)
    requires forall k :: 0 <= k < |s| && k != lo + i ==> s'[k] == s[k]
    requires s'[lo + i] == Div(u[lo + i], Pow2(d)) + (u[lo + i - 1] % Pow2(d)) * Pow2(h - d)
    ensures UnshiftState(h, s', u, lo, n, i - 1, d)
  {
    var b, w, q := Pow2(h), Pow2(d), Pow(Pow2(h), n - i);
    var e := lo + n + 1;
    assert s'[lo + i + 1..e] == s[lo + i + 1..e];
    assert s'[lo + i..e][1..] == s[lo + i + 1..e];
    assert u[lo + i..e][1..] == u[lo + i + 1..e];
    DivMod(u[lo + i], w);
    Pow2Add(h - d, d);
    UnshiftSum(b, w, Pow2(h - d), q, Div(u[lo + i], w), u[lo + i] % w, u[lo + i - 1] % w,
               Val(b, s[lo + i + 1..e]), Val(b, u[lo + i + 1..e]), u[lo + n] % w);
  }

  lemma UnshiftSum(b: nat, w: nat, g: nat, q: nat, y: nat, z: nat, z': nat, xs: nat, us: nat, last: nat)
    requires b == g * w
    requires xs * w + last == us + z * q
    ensures ((y + z' * g) * q + xs) * w + last == (y * w + z) * q + us + z' * (b * q)
  {
    assert ((y + z' * g) * q + xs) * w == (y + z' * g) * q * w + xs * w;
    assert (y + z' * g) * q * w == y * q * w + z' * g * q * w;
    assert z' * g * q * w == z' * (b * q) by {
      assert z' * g * q * w == z' * (g * q * w);
      assert g * q * w == g * w * q;
    }
    assert (y * w + z) * q == y * w * q + z * q;
    assert y * w * q == y * q * w;
  }
}
