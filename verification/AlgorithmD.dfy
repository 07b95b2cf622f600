/** Steps D3 to D6 of Knuth's Algorithm D as in common/gcc-millicode/qdivrem.c, for every
    half-word width h.  The digit array u is updated in place; u[j] of the source is a[lo]
    and v[0] is v[vo]. */
module AlgorithmD {
  import opened Words
  import opened Digits

  // ---- Step D3: the trial digit ----

  /** What step D3 leaves in qhat: the largest digit whose product with the two leading
      divisor digits does not exceed the three leading dividend digits. */
  ghost predicate IsTrialDigit(b: nat, qhat: nat, u3: int, v2: int)
  {
    && qhat < b
    && qhat * v2 <= u3
    && (qhat == b - 1 || (qhat + 1) * v2 > u3)
  }

  /** Computes qhat from the leading digits; `steps` counts the decrements. */
  method TrialDigit(h: nat, uj0: nat, uj1: nat, uj2: nat, v1: nat, v2: nat)
    returns (qhat: nat, ghost steps: nat)
    requires h >= 1 && uj1 < Pow2(h) && uj2 < Pow2(h) && v2 < Pow2(h)
    requires Pow2(h) <= 2 * v1 && v1 < Pow2(h) && uj0 <= v1
    ensures IsTrialDigit(Pow2(h), qhat, (uj0 * Pow2(h) + uj1) * Pow2(h) + uj2, v1 * Pow2(h) + v2)
    ensures steps <= 2
    ensures qhat + steps == if uj0 == v1 then Pow2(h) else Div(uj0 * Pow2(h) + uj1, v1)
  {
    hide TrialState, IsTrialDigit;
    var b := Pow2(h);
    var rhat: nat;
    var done := false;
    steps := 0;
    if uj0 == v1 {
      qhat := b - 1;
      rhat := uj1 + v1;
      done := rhat >= b;
      steps := 1;
      SaturatedTrial(b, uj1, uj2, v1, v2);
    } else {
      var nn := Combine(h, uj0, uj1);
      qhat, rhat := Div(nn, v1), Mod(nn, v1);
      FirstTrial(b, nn, uj0, uj1, uj2, v1, v2);
    }
    ghost var first := qhat + steps;
    while !done && ProductExceeds(h, v2, qhat, rhat, uj2)
      invariant TrialState(b, qhat, rhat, uj0, uj1, uj2, v1, v2) && qhat < b
      invariant done <==> rhat >= b
      invariant StepsPaid(steps, v1, rhat)
      invariant qhat + steps == first
      decreases qhat
    {
      TrialDecrement(b, qhat, rhat, uj0, uj1, uj2, v1, v2, steps);
      qhat := qhat - 1;
      rhat := rhat + v1;
      done := rhat >= b;
      steps := steps + 1;
    }
    TrialDone(b, qhat, rhat, uj0, uj1, uj2, v1, v2);
  }

  /** Each decrement of qhat has added v1 to rhat. */
  ghost predicate StepsPaid(steps: nat, v1: nat, rhat: nat)
  {
    steps <= 2 && (steps >= 1 ==> v1 <= rhat) && (steps == 2 ==> 2 * v1 <= rhat)
  }

  lemma SaturatedTrial(b: nat, uj1: nat, uj2: nat, v1: nat, v2: nat)
    requires b >= 1
    ensures TrialState(b, b - 1, uj1 + v1, v1, uj1, uj2, v1, v2)
  {
    assert (b - 1) * v1 == b * v1 - v1;
  }

  /** Loop invariant of step D3: rhat is the remainder that goes with qhat, and no larger
      digit will do. */
  ghost predicate TrialState(b: nat, qhat: nat, rhat: nat, uj0: nat, uj1: nat, uj2: nat, v1: nat, v2: nat)
  {
    && qhat < b
    && rhat + qhat * v1 == uj0 * b + uj1
    && (qhat == b - 1 || (qhat + 1) * (v1 * b + v2) > (uj0 * b + uj1) * b + uj2)
  }

  lemma TrialDecrement(b: nat, qhat: nat, rhat: nat, uj0: nat, uj1: nat, uj2: nat, v1: nat, v2: nat, steps: nat)
    requires TrialState(b, qhat, rhat, uj0, uj1, uj2, v1, v2) && StepsPaid(steps, v1, rhat)
    requires rhat < b <= 2 * v1 && v2 * qhat > rhat * b + uj2
    ensures qhat > 0 && StepsPaid(steps + 1, v1, rhat + v1)
    ensures TrialState(b, qhat - 1, rhat + v1, uj0, uj1, uj2, v1, v2)
  {
    TrialOrder(b, qhat, rhat, uj0, uj1, uj2, v1, v2);
    assert qhat > 0 by {
      if qhat == 0 {
        MulPositive(rhat, b);
      }
    }
    assert (qhat - 1) * v1 == qhat * v1 - v1;
  }

  lemma TrialDone(b: nat, qhat: nat, rhat: nat, uj0: nat, uj1: nat, uj2: nat, v1: nat, v2: nat)
    requires TrialState(b, qhat, rhat, uj0, uj1, uj2, v1, v2) && v2 < b
    requires rhat >= b || v2 * qhat <= rhat * b + uj2
    ensures IsTrialDigit(b, qhat, (uj0 * b + uj1) * b + uj2, v1 * b + v2)
  {
    TrialOrder(b, qhat, rhat, uj0, uj1, uj2, v1, v2);
    if rhat >= b {
      TrialStop(b, qhat, rhat, v2);
    }
  }

  /** The test `v2 * qhat > COMBINE(rhat, uj2)`; the product fits in a word. */
  function ProductExceeds(h: nat, v2: nat, qhat: nat, rhat: nat, uj2: nat): (r: bool)
    requires v2 < Pow2(h) && qhat < Pow2(h) && rhat < Pow2(h) && uj2 < Pow2(h)
    ensures r <==> v2 * qhat > rhat * Pow2(h) + uj2
  {
    WordProduct(Pow2(h), v2, qhat);
    Mod(v2 * qhat, Pow2(h) * Pow2(h)) > Combine(h, rhat, uj2)
  }

  /** The product of two digits fits in a word, with room for two more digits. */
  lemma WordProduct(b: nat, x: nat, y: nat)
    requires x < b && y < b
    ensures 0 <= x * y && x * y + 2 * (b - 1) < b * b
    ensures 0 < b * b
  {
    MulPositive(x, y);
    MulLe(x, b - 1, y);
    MulLe(y, b - 1, b - 1);
    assert (b - 1) * (b - 1) == b * b - 2 * b + 1;
    assert (b - 1) * y == y * (b - 1);
  }

  lemma FirstTrial(b: nat, nn: nat, uj0: nat, uj1: nat, uj2: nat, v1: nat, v2: nat)
    requires nn == uj0 * b + uj1 && uj0 < v1 < b && uj1 < b && uj2 < b
    ensures Div(nn, v1) < b && Mod(nn, v1) < v1
    ensures TrialState(b, Div(nn, v1), Mod(nn, v1), uj0, uj1, uj2, v1, v2)
  {
    var q := Div(nn, v1);
    DivMod(nn, v1);
    ScaledLess(b, uj0, v1, uj1);
    assert v1 * b == b * v1;
    DivBound(nn, v1, b);
    NextTooLarge(b, nn, q, uj2, v1, v2);
  }

  lemma NextTooLarge(b: nat, nn: nat, q: nat, uj2: nat, v1: nat, v2: nat)
    requires nn < q * v1 + v1 && uj2 < b
    ensures (q + 1) * (v1 * b + v2) > nn * b + uj2
  {
    assert (q + 1) * v1 == q * v1 + v1;
    MulLe(nn + 1, (q + 1) * v1, b);
    assert (nn + 1) * b == nn * b + b;
    assert (q + 1) * (v1 * b + v2) == (q + 1) * v1 * b + (q + 1) * v2;
    MulPositive(q + 1, v2);
  }

  /** Comparing v2 * qhat with rhat * b + uj2 compares qhat * (v1 v2) with (u0 u1 u2). */
  lemma TrialOrder(b: nat, qhat: nat, rhat: nat, uj0: nat, uj1: nat, uj2: nat, v1: nat, v2: nat)
    requires rhat + qhat * v1 == uj0 * b + uj1
    ensures qhat * (v1 * b + v2) - ((uj0 * b + uj1) * b + uj2) == v2 * qhat - (rhat * b + uj2)
  {
    assert qhat * (v1 * b + v2) == qhat * v1 * b + v2 * qhat;
    assert (rhat + qhat * v1) * b == rhat * b + qhat * v1 * b;
  }

  lemma TrialStop(b: nat, qhat: nat, rhat: nat, v2: nat)
    requires qhat < b && v2 < b && rhat >= b
    ensures v2 * qhat <= rhat * b
  {
    WordProduct(b, v2, qhat);
    MulLe(b, rhat, b);
  }

  /** Knuth's bound: the trial digit is the true digit u / v or one more. */
  lemma TrialDigitBound(b: nat, p: nat, u: nat, v: nat, u3: nat, v2: nat, qhat: nat)
    requires IsTrialDigit(b, qhat, u3, v2) && p > 0 && v2 >= b && u < v * b
    requires u3 * p <= u < u3 * p + p
    requires v2 * p <= v < v2 * p + p
    ensures u < (qhat + 1) * v
    ensures qhat >= 1 ==> (qhat - 1) * v <= u
    ensures u < qhat * v ==> qhat >= 1
  {
    if qhat == b - 1 {
      assert (qhat + 1) * v == v * b;
    } else {
      UpperTrial(p, u, v, u3, v2, qhat);
    }
    if qhat >= 1 {
      LowerTrial(b, p, v, v2, qhat);
      MulLe(qhat * v2, u3, p);
    } else {
      assert qhat * v == 0;
    }
  }

  lemma UpperTrial(p: nat, u: nat, v: nat, u3: nat, v2: nat, qhat: nat)
    requires (qhat + 1) * v2 > u3 && u < u3 * p + p && v2 * p <= v
    ensures u < (qhat + 1) * v
  {
    var k := qhat + 1;
    MulLe(u3 + 1, k * v2, p);
    assert (u3 + 1) * p == u3 * p + p;
    assert k * v2 * p == v2 * p * k;
    MulLe(v2 * p, v, k);
    assert v * k == k * v;
  }

  lemma LowerTrial(b: nat, p: nat, v: nat, v2: nat, qhat: nat)
    requires 1 <= qhat < b && v2 >= b && v < v2 * p + p
    ensures (qhat - 1) * v <= qhat * v2 * p
  {
    var k := qhat - 1;
    MulLe(v, (v2 + 1) * p, k) by {
      assert (v2 + 1) * p == v2 * p + p;
    }
    assert k * v == v * k;
    assert (v2 + 1) * p * k == (k * (v2 + 1)) * p by {
      assert k * (v2 + 1) * p == k * ((v2 + 1) * p);
    }
    assert k * (v2 + 1) == qhat * v2 - v2 + k;
    MulLe(k * (v2 + 1), qhat * v2, p);
  }

  // ---- Steps D4 to D6: multiply and subtract, add back ----

  /** One digit of step D4: `t = u - v * qhat - t`, then the low half is the new digit and
      `(B - HHALF(t)) & (B - 1)` the borrow. */
  method SubtractDigit(h: nat, u: nat, v: nat, qhat: nat, t: nat) returns (digit: nat, borrow: nat)
    requires h >= 1 && u < Pow2(h) && v < Pow2(h) && qhat < Pow2(h) && t < Pow2(h)
    ensures digit < Pow2(h) && borrow < Pow2(h)
    ensures digit + v * qhat + t == u + borrow * Pow2(h)
  {
    var b := Pow2(h);
    WordProduct(b, v, qhat);
    var x := u - v * qhat - t;
    var w := Mod(x, b * b);
    digit := LHalf(h, w);
    borrow := And(b - HHalf(h, w), b - 1) by {
      BorrowBits(b, x, HHalf(h, w), w);
    }
    MaskIsMod(b - HHalf(h, w), h);
    BorrowBits(b, x, HHalf(h, w), w);
    DivMod(w, b);
  }

  /** Reading the borrow off the wrapped difference. */
  lemma BorrowBits(b: nat, x: int, hi: nat, w: nat)
    requires b > 0 && -(b * b) <= x - b && x < b && w == x % (b * b)
    requires hi * b <= w < hi * b + b
    ensures hi <= b
    ensures 0 <= w % b < b && w % b == x + ((b - hi) % b) * b
  {
    assert 0 < b * b;
    if x >= 0 {
      assert b <= b * b by { MulLe(1, b, b); }
      SmallMod(x, b * b);
      if hi >= 1 {
        MulLe(1, hi, b);
      }
      assert hi == 0;
      assert b % b == 0 by { DivUnique(b, b, 1, 0); }
      DivUnique(w, b, 0, x);
    } else {
      DivUnique(x, b * b, -1, x + b * b);
      assert w == x + b * b;
      if hi >= b {
        MulLe(b, hi, b);
      }
      if hi == 0 {
        assert w >= b;
      }
      DivUnique(w, b, hi, w - hi * b);
      SmallMod(b - hi, b);
      assert (b - hi) * b == b * b - hi * b;
    }
  }

  lemma ValCons(b: nat, s: seq<nat>, i: nat, k: nat)
    requires i < k <= |s|
    ensures Val(b, s[i..k]) == s[i] * Pow(b, k - i - 1) + Val(b, s[i + 1..k])
  {
    assert s[i..k][1..] == s[i + 1..k];
  }

  /** The last column of step D4: `t = u[j] - t`, and a borrow shows in HHALF(t). */
  method SubtractTop(h: nat, u: nat, t: nat) returns (digit: nat, borrow: bool)
    requires h >= 1 && u < Pow2(h) && t < Pow2(h)
    ensures digit < Pow2(h) && digit + t == u + (if borrow then Pow2(h) else 0)
  {
    var b := Pow2(h);
    assert b >= 2;
    MulPositive(b, b);
    var w := Mod(u - t, b * b);
    borrow := HHalf(h, w) != 0;
    TopDigit(b, u - t, w, HHalf(h, w));
    digit := LHalf(h, w);
  }

  /** Step D4: subtract qhat * v[1..n] from u[j..j+n], where u[j] is a[lo].  The result is the
      true difference, or that difference plus Pow(B, n + 1) exactly when there is a borrow. */
  method MultiplySubtract(h: nat, a: array<nat>, lo: nat, v: array<nat>, vo: nat, n: nat, qhat: nat)
    returns (borrow: bool)
    requires h >= 1 && a != v && lo + n < a.Length && vo + n < v.Length && qhat < Pow2(h)
    requires AllDigits(Pow2(h), a[..]) && AllDigits(Pow2(h), v[..])
    modifies a
    ensures AllDigits(Pow2(h), a[..])
    ensures forall k :: 0 <= k < a.Length && !(lo <= k <= lo + n) ==> a[k] == old(a[k])
    ensures Val(Pow2(h), a[lo..lo + n + 1]) + qhat * Val(Pow2(h), v[vo + 1..vo + n + 1])
         == Val(Pow2(h), old(a[..])[lo..lo + n + 1]) + (if borrow then Pow(Pow2(h), n + 1) else 0)
  {
    var b := Pow2(h);
    ghost var u := a[..];
    ghost var vs := v[..];
    var t: nat := 0;
    var i := n;
    assert a[..][lo + n + 1..lo + n + 1] == u[lo + n + 1..lo + n + 1] == vs[vo + n + 1..vo + n + 1] == [];
    while i > 0
      invariant 0 <= i <= n && t < b
      invariant AllDigits(b, a[..])
      invariant forall k :: 0 <= k < a.Length && !(lo + i < k <= lo + n) ==> a[k] == u[k]
      invariant SubtractState(b, a[..], u, vs, lo, vo, n, i, qhat, t)
    {
      ghost var before := a[..];
      var digit, t' := SubtractDigit(h, a[lo + i], v[vo + i], qhat, t);
      a[lo + i] := digit;
      SubtractAdvance(b, before, a[..], u, vs, lo, vo, n, i, qhat, t, t');
      t := t';
      i := i - 1;
    }
    ghost var before := a[..];
    var top;
    top, borrow := SubtractTop(h, a[lo], t);
    a[lo] := top;
    SubtractLast(b, before, a[..], u, vs, lo, vo, n, qhat, t, if borrow then 1 else 0);
    assert a[lo..lo + n + 1] == a[..][lo..lo + n + 1];
    assert v[vo + 1..vo + n + 1] == vs[vo + 1..vo + n + 1];
  }

  /** Digits i+1..n have been subtracted and t is owed by the digits above. */
  ghost predicate SubtractState(b: nat, s: seq<nat>, u: seq<nat>, vs: seq<nat>, lo: nat, vo: nat, n: nat,
                                i: nat, qhat: nat, t: nat)
    requires i <= n && lo + n < |s| == |u| && vo + n < |vs|
  {
    Val(b, s[lo + i + 1..lo + n + 1]) + qhat * Val(b, vs[vo + i + 1..vo + n + 1])
    == Val(b, u[lo + i + 1..lo + n + 1]) + t * Pow(b, n - i)
  }

  lemma SubtractAdvance(b: nat, s: seq<nat>, s': seq<nat>, u: seq<nat>, vs: seq<nat>, lo: nat, vo: nat, n: nat,
                        i: nat, qhat: nat, t: nat, t': nat)
    requires 1 <= i <= n && lo + n < |s| == |s'| == |u| && vo + n < |vs|
    requires SubtractState(b, s, u, vs, lo, vo, n, i, qhat, t)
    requires forall k :: 0 <= k < |s| && k != lo + i ==> s'[k] == s[k]
    requires s'[lo + i] + vs[vo + i] * qhat + t == u[lo + i] + t' * b
    ensures SubtractState(b, s', u, vs, lo, vo, n, i - 1, qhat, t')
  {
    assert s'[lo + i + 1..lo + n + 1] == s[lo + i + 1..lo + n + 1];
    ValCons(b, s', lo + i, lo + n + 1);
    ValCons(b, u, lo + i, lo + n + 1);
    ValCons(b, vs, vo + i, vo + n + 1);
    BorrowSum(b, Pow(b, n - i), s'[lo + i], qhat, vs[vo + i], t, u[lo + i], t',
              Val(b, s[lo + i + 1..lo + n + 1]), Val(b, vs[vo + i + 1..vo + n + 1]), Val(b, u[lo + i + 1..lo + n + 1]));
  }

  /** Adds one digit column, weighted by p, to a subtraction. */
  lemma BorrowSum(b: nat, p: nat, x: nat, q: nat, y: nat, t: nat, o: nat, t': nat, xs: nat, ys: nat, os: nat)
    requires x + y * q + t == o + t' * b
    requires xs + q * ys == os + t * p
    ensures x * p + xs + q * (y * p + ys) == o * p + os + t' * (b * p)
  {
    assert (x + y * q + t) * p == x * p + y * q * p + t * p;
    assert (o + t' * b) * p == o * p + t' * (b * p);
    assert q * (y * p + ys) == y * q * p + q * ys;
  }

  lemma TopDigit(b: nat, x: int, w: nat, hi: nat)
    requires b > 0 && 0 < x + b && x < b && w == x % (b * b) && hi * b <= w < hi * b + b
    ensures b > 1 ==> (hi != 0 <==> x < 0)
    ensures b > 1 ==> 0 <= w % b < b && w % b == x + (if hi != 0 then b else 0)
  {
    if b > 1 {
      assert b * b >= 2 * b by { MulLe(2, b, b); }
      if x >= 0 {
        SmallMod(x, b * b);
        if hi >= 1 {
          MulLe(1, hi, b);
        }
        DivUnique(w, b, 0, x);
      } else {
        DivUnique(x, b * b, -1, x + b * b);
        assert w == (b - 1) * b + (x + b);
        DivUnique(w, b, b - 1, x + b);
        assert 0 * b == 0;
      }
    }
  }

  lemma SubtractLast(b: nat, s: seq<nat>, s': seq<nat>, u: seq<nat>, vs: seq<nat>, lo: nat, vo: nat, n: nat,
                     qhat: nat, t: nat, c: nat)
    requires lo + n < |s| == |s'| == |u| && vo + n < |vs|
    requires SubtractState(b, s, u, vs, lo, vo, n, 0, qhat, t)
    requires forall k :: 0 <= k < |s| && k != lo ==> s'[k] == s[k]
    requires s'[lo] + t == u[lo] + c * b
    ensures Val(b, s'[lo..lo + n + 1]) + qhat * Val(b, vs[vo + 1..vo + n + 1])
         == Val(b, u[lo..lo + n + 1]) + c * Pow(b, n + 1)
  {
    assert s'[lo + 1..lo + n + 1] == s[lo + 1..lo + n + 1];
    ValCons(b, s', lo, lo + n + 1);
    ValCons(b, u, lo, lo + n + 1);
    BorrowSum(b, Pow(b, n), s'[lo], qhat, 0, t, u[lo], c,
              Val(b, s[lo + 1..lo + n + 1]), Val(b, vs[vo + 1..vo + n + 1]), Val(b, u[lo + 1..lo + n + 1]));
    assert 0 * Pow(b, n) == 0;
  }

  /** Step D6: add v[1..n] back to u[j..j+n]; at most one carry is lost off the top. */
  method AddBack(h: nat, a: array<nat>, lo: nat, v: array<nat>, vo: nat, n: nat) returns (ghost lost: nat)
    requires h >= 1 && a != v && lo + n < a.Length && vo + n < v.Length
    requires AllDigits(Pow2(h), a[..]) && AllDigits(Pow2(h), v[..])
    modifies a
    ensures AllDigits(Pow2(h), a[..])
    ensures forall k :: 0 <= k < a.Length && !(lo <= k <= lo + n) ==> a[k] == old(a[k])
    ensures lost <= 1
    ensures Val(Pow2(h), a[lo..lo + n + 1]) + lost * Pow(Pow2(h), n + 1)
         == Val(Pow2(h), old(a[..])[lo..lo + n + 1]) + Val(Pow2(h), v[vo + 1..vo + n + 1])
  {
    hide Val, Pow, AddState;
    var b := Pow2(h);
    ghost var u := a[..];
    ghost var vs := v[..];
    var t: nat := 0;
    var i := n;
    AddStart(b, u, vs, lo, vo, n);
    while i > 0
      invariant 0 <= i <= n && t <= 1
      invariant AllDigits(b, a[..])
      invariant forall k :: 0 <= k < a.Length && !(lo + i < k <= lo + n) ==> a[k] == u[k]
      invariant AddState(b, a[..], u, vs, lo, vo, n, i, t)
    {
      ghost var before := a[..];
      t := t + a[lo + i] + v[vo + i];
      a[lo + i] := LHalf(h, t);
      DivMod(t, b);
      CarryBit(b, t);
      AddAdvance(b, before, a[..], u, vs, lo, vo, n, i, t);
      t := HHalf(h, t);
      i := i - 1;
    }
    ghost var before := a[..];
    ghost var top := a[lo] + t;
    a[lo] := LHalf(h, a[lo] + t);
    DivMod(top, b);
    CarryBit(b, top);
    lost := top / b;
    AddLast(b, before, a[..], u, vs, lo, vo, n, t, lost);
    assert a[lo..lo + n + 1] == a[..][lo..lo + n + 1];
    assert v[vo + 1..vo + n + 1] == vs[vo + 1..vo + n + 1];
  }

  lemma AddStart(b: nat, u: seq<nat>, vs: seq<nat>, lo: nat, vo: nat, n: nat)
    requires lo + n < |u| && vo + n < |vs|
    ensures AddState(b, u, u, vs, lo, vo, n, n, 0)
  {
    assert u[lo + n + 1..lo + n + 1] == [] && vs[vo + n + 1..vo + n + 1] == [];
  }

  lemma CarryBit(b: nat, t: nat)
    requires b >= 1 && t < 2 * b
    ensures 0 <= t / b <= 1
  {
    DivBound(t, b, 2);
  }

  ghost predicate AddState(b: nat, s: seq<nat>, u: seq<nat>, vs: seq<nat>, lo: nat, vo: nat, n: nat, i: nat, t: nat)
    requires i <= n && lo + n < |s| == |u| && vo + n < |vs|
  {
    Val(b, s[lo + i + 1..lo + n + 1]) + t * Pow(b, n - i)
    == Val(b, u[lo + i + 1..lo + n + 1]) + Val(b, vs[vo + i + 1..vo + n + 1])
  }

  lemma AddAdvance(b: nat, s: seq<nat>, s': seq<nat>, u: seq<nat>, vs: seq<nat>, lo: nat, vo: nat, n: nat, i: nat,
                   sum: nat)
    requires 1 <= i <= n && lo + n < |s| == |s'| == |u| && vo + n < |vs| && b > 0
    requires sum >= u[lo + i] + vs[vo + i]
    requires AddState(b, s, u, vs, lo, vo, n, i, sum - u[lo + i] - vs[vo + i])
    requires forall k :: 0 <= k < |s| && k != lo + i ==> s'[k] == s[k]
    requires s'[lo + i] == sum % b && 0 <= sum / b
    ensures AddState(b, s', u, vs, lo, vo, n, i - 1, sum / b)
  {
    assert s'[lo + i + 1..lo + n + 1] == s[lo + i + 1..lo + n + 1];
    ValCons(b, s', lo + i, lo + n + 1);
    ValCons(b, u, lo + i, lo + n + 1);
    ValCons(b, vs, vo + i, vo + n + 1);
    DivMod(sum, b);
    CarrySum(b, Pow(b, n - i), s'[lo + i], vs[vo + i], sum - u[lo + i] - vs[vo + i], u[lo + i], sum / b,
             Val(b, s[lo + i + 1..lo + n + 1]), Val(b, vs[vo + i + 1..vo + n + 1]), Val(b, u[lo + i + 1..lo + n + 1]));
  }

  lemma CarrySum(b: nat, p: nat, x: nat, y: nat, t: nat, o: nat, t': nat, xs: nat, ys: nat, os: nat)
    requires x + t' * b == o + y + t
    requires xs + t * p == os + ys
    ensures x * p + xs + t' * (b * p) == o * p + os + (y * p + ys)
  {
    assert (x + t' * b) * p == x * p + t' * (b * p);
    assert (o + y + t) * p == o * p + y * p + t * p;
  }

  lemma AddLast(b: nat, s: seq<nat>, s': seq<nat>, u: seq<nat>, vs: seq<nat>, lo: nat, vo: nat, n: nat, t: nat, c: nat)
    requires lo + n < |s| == |s'| == |u| && vo + n < |vs|
    requires AddState(b, s, u, vs, lo, vo, n, 0, t)
    requires forall k :: 0 <= k < |s| && k != lo ==> s'[k] == s[k]
    requires s'[lo] + c * b == u[lo] + t
    ensures Val(b, s'[lo..lo + n + 1]) + c * Pow(b, n + 1)
         == Val(b, u[lo..lo + n + 1]) + Val(b, vs[vo + 1..vo + n + 1])
  {
    assert s'[lo + 1..lo + n + 1] == s[lo + 1..lo + n + 1];
    ValCons(b, s', lo, lo + n + 1);
    ValCons(b, u, lo, lo + n + 1);
    CarrySum(b, Pow(b, n), s'[lo], 0, t, u[lo], c,
             Val(b, s[lo + 1..lo + n + 1]), Val(b, vs[vo + 1..vo + n + 1]), Val(b, u[lo + 1..lo + n + 1]));
    assert 0 * Pow(b, n) == 0;
  }

  // ---- One pass of the D loop ----

  lemma Val2(b: nat, s: seq<nat>, i: nat)
    requires i + 2 <= |s|
    ensures Val(b, s[i..i + 2]) == s[i] * b + s[i + 1]
  {
    assert s[i..i + 2] == [s[i]] + [s[i + 1]];
    ValAppend(b, [s[i]], s[i + 1]);
    ValOne(b, s[i]);
  }

  lemma Val3(b: nat, s: seq<nat>, i: nat)
    requires i + 3 <= |s|
    ensures Val(b, s[i..i + 3]) == (s[i] * b + s[i + 1]) * b + s[i + 2]
  {
    assert s[i..i + 3] == s[i..i + 2] + [s[i + 2]];
    ValAppend(b, s[i..i + 2], s[i + 2]);
    Val2(b, s, i);
  }

  /** The first k digits of a number bound it from both sides. */
  lemma LeadingDigits(b: nat, s: seq<nat>, i: nat, k: nat, e: nat)
    requires i + k <= e <= |s| && AllDigits(b, s)
    ensures Val(b, s[i..i + k]) * Pow(b, e - i - k) <= Val(b, s[i..e])
    ensures Val(b, s[i..e]) < Val(b, s[i..i + k]) * Pow(b, e - i - k) + Pow(b, e - i - k)
  {
    ValSplit(b, s[i..e], k);
    assert s[i..e][..k] == s[i..i + k] && s[i..e][k..] == s[i + k..e];
    ValBound(b, s[i + k..e]);
  }

  /** Precondition of a pass: v is normalised and u[j..j+n-1] < v. */
  ghost predicate Ready(b: nat, u: seq<nat>, lo: nat, vs: seq<nat>, vo: nat, n: nat)
  {
    && 2 <= n && lo + n < |u| && vo + n < |vs|
    && AllDigits(b, u) && AllDigits(b, vs)
    && b <= 2 * vs[vo + 1]
    && Val(b, u[lo..lo + n]) < Val(b, vs[vo + 1..vo + n + 1])
  }

  lemma ReadyBounds(b: nat, u: seq<nat>, lo: nat, vs: seq<nat>, vo: nat, n: nat, qhat: nat)
    requires Ready(b, u, lo, vs, vo, n) && b >= 2
    requires u[lo] <= vs[vo + 1] ==>
      IsTrialDigit(b, qhat, (u[lo] * b + u[lo + 1]) * b + u[lo + 2], vs[vo + 1] * b + vs[vo + 2])
    ensures u[lo] <= vs[vo + 1]
    ensures var uv, vv := Val(b, u[lo..lo + n + 1]), Val(b, vs[vo + 1..vo + n + 1]);
            && uv < (qhat + 1) * vv
            && (qhat >= 1 ==> (qhat - 1) * vv <= uv)
            && (uv < qhat * vv ==> qhat >= 1)
            && vv < Pow(b, n + 1)
  {
    var uv, vv := Val(b, u[lo..lo + n + 1]), Val(b, vs[vo + 1..vo + n + 1]);
    var us, ws := u[lo..lo + n], vs[vo + 1..vo + n + 1];
    LeadingDigitLe(b, us, ws);
    Val3(b, u, lo);
    Val2(b, vs, vo + 1);
    LeadingDigits(b, u, lo, 3, lo + n + 1);
    LeadingDigits(b, vs, vo + 1, 2, vo + n + 1);
    assert u[lo..lo + n + 1] == us + [u[lo + n]];
    ValAppend(b, us, u[lo + n]);
    ScaledLess(b, Val(b, us), vv, u[lo + n]);
    MulLe(1, vs[vo + 1], b);
    TrialDigitBound(b, Pow(b, n - 2), uv, vv,
                    (u[lo] * b + u[lo + 1]) * b + u[lo + 2], vs[vo + 1] * b + vs[vo + 2], qhat);
    ValBound(b, ws);
    MulLe(1, b, Pow(b, n));
  }

  lemma ScaledLess(b: nat, x: nat, y: nat, d: nat)
    requires x < y && d < b
    ensures x * b + d < y * b
  {
    MulLe(x + 1, y, b);
    assert (x + 1) * b == x * b + b;
  }

  /** Steps D3 to D6 for one quotient digit.  The ghost results record what the comments of
      the source promise: at most two corrections of qhat, and a borrow exactly when qhat is
      one more than the digit. */
  method DivideStep(h: nat, a: array<nat>, lo: nat, v: array<nat>, vo: nat, n: nat)
    returns (q: nat, ghost qhat: nat, ghost steps: nat, ghost borrow: bool)
    requires h >= 1 && a != v && Ready(Pow2(h), a[..], lo, v[..], vo, n)
    modifies a
    ensures AllDigits(Pow2(h), a[..])
    ensures forall k :: 0 <= k < a.Length && !(lo <= k <= lo + n) ==> a[k] == old(a[k])
    ensures q < Pow2(h)
    ensures Val(Pow2(h), old(a[..])[lo..lo + n + 1])
         == q * Val(Pow2(h), v[vo + 1..vo + n + 1]) + Val(Pow2(h), a[lo..lo + n + 1])
    ensures Val(Pow2(h), a[lo..lo + n + 1]) < Val(Pow2(h), v[vo + 1..vo + n + 1])
    ensures steps <= 2 && (qhat == q || qhat == q + 1) && (borrow <==> qhat == q + 1)
  {
    var b := Pow2(h);
    ghost var u := a[..];
    ghost var vs := v[..];
    assert b >= 2;
    assert v[vo + 1..vo + n + 1] == vs[vo + 1..vo + n + 1];
    LeadingDigitLe(b, u[lo..lo + n], vs[vo + 1..vo + n + 1]);
    q, steps := TrialDigit(h, a[lo], a[lo + 1], a[lo + 2], v[vo + 1], v[vo + 2]);
    qhat := q;
    ReadyBounds(b, u, lo, vs, vo, n, qhat);
    ghost var uv, vv := Val(b, u[lo..lo + n + 1]), Val(b, vs[vo + 1..vo + n + 1]);
    var neg := MultiplySubtract(h, a, lo, v, vo, n, q);
    borrow := neg;
    ghost var mid := Val(b, a[..][lo..lo + n + 1]);
    assert a[lo..lo + n + 1] == a[..][lo..lo + n + 1];
    ValBound(b, a[..][lo..lo + n + 1]);
    BorrowMeans(uv, vv, qhat, mid, neg, Pow(b, n + 1));
    if neg {
      q := q - 1;
      ghost var lost := AddBack(h, a, lo, v, vo, n);
      assert a[lo..lo + n + 1] == a[..][lo..lo + n + 1];
      ValBound(b, a[..][lo..lo + n + 1]);
      AddBackRestores(uv, vv, qhat, mid, Val(b, a[..][lo..lo + n + 1]), lost, Pow(b, n + 1));
    }
  }

  /** The borrow tells whether qhat was too large. */
  lemma BorrowMeans(u: nat, v: nat, qhat: nat, mid: nat, neg: bool, p: nat)
    requires mid + qhat * v == u + (if neg then p else 0) && mid < p
    requires u < (qhat + 1) * v && v < p && (u < qhat * v ==> qhat >= 1)
    ensures neg <==> u < qhat * v
    ensures !neg ==> u == qhat * v + mid && mid < v
    ensures neg ==> qhat >= 1
  {
    assert (qhat + 1) * v == qhat * v + v;
  }

  /** Adding v back once undoes the excess, and the carry off the top cancels the borrow. */
  lemma AddBackRestores(u: nat, v: nat, qhat: nat, mid: nat, res: nat, lost: nat, p: nat)
    requires qhat >= 1 && mid + qhat * v == u + p && mid < p && u < qhat * v
    requires (qhat - 1) * v <= u && v < p
    requires res + lost * p == mid + v && lost <= 1 && res < p
    ensures u == (qhat - 1) * v + res && res < v
  {
    assert (qhat - 1) * v == qhat * v - v;
    assert lost == 0 || lost * p == p;
  }
}
