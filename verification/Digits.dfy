/** Numbers written as big-endian digit sequences in a base `b`. */
module Digits {
  import opened Words

  ghost predicate AllDigits(b: nat, s: seq<nat>)
  {
    forall i :: 0 <= i < |s| ==> s[i] < b
  }

  ghost function Val(b: nat, s: seq<nat>): (r: nat)
  {
    if s == [] then 0
    else
      MulPositive(s[0], Pow(b, |s| - 1));
      s[0] * Pow(b, |s| - 1) + Val(b, s[1..])
  }

  lemma {:induction false} ValBound(b: nat, s: seq<nat>)
    requires AllDigits(b, s)
    ensures Val(b, s) < Pow(b, |s|)
  {
    if s != [] {
      ValBound(b, s[1..]);
      var p := Pow(b, |s| - 1);
      MulLe(s[0], b - 1, p);
      assert (b - 1) * p == b * p - p;
    }
  }

  /** The leading digit. */
  lemma ValHead(b: nat, s: seq<nat>)
    requires s != []
    ensures Val(b, s) == s[0] * Pow(b, |s| - 1) + Val(b, s[1..])
  {
  }

  /** Splitting a digit sequence splits its value. */
  lemma {:induction false} ValSplit(b: nat, s: seq<nat>, k: nat)
    requires k <= |s|
    ensures Val(b, s) == Val(b, s[..k]) * Pow(b, |s| - k) + Val(b, s[k..])
  {
    if k == 0 {
      assert s[..0] == [] && s[0..] == s;
    } else {
      hide Val, Pow;
      ValSplit(b, s[1..], k - 1);
      assert s[1..][..k - 1] == s[..k][1..];
      assert s[1..][k - 1..] == s[k..];
      PowAdd(b, k - 1, |s| - k);
      ValHead(b, s);
      ValHead(b, s[..k]);
      Distribute(s[0], Pow(b, k - 1), Val(b, s[..k][1..]), Pow(b, |s| - k));
    }
  }

  lemma Distribute(a: int, p: int, r: int, q: int)
    ensures (a * p + r) * q == a * (p * q) + r * q
  {
    assert a * p * q == a * (p * q);
  }

  lemma ValOne(b: nat, d: nat)
    ensures Val(b, [d]) == d
  {
    assert [d][1..] == [];
    assert Pow(b, 0) == 1;
  }

  lemma ValAppend(b: nat, s: seq<nat>, d: nat)
    ensures Val(b, s + [d]) == Val(b, s) * b + d
  {
    var t := s + [d];
    ValSplit(b, t, |s|);
    assert t[..|s|] == s && t[|s|..] == [d];
    ValOne(b, d);
    assert Pow(b, 1) == b * Pow(b, 0) == b;
  }

  lemma {:induction false} ValZeros(b: nat, s: seq<nat>)
    requires forall i :: 0 <= i < |s| ==> s[i] == 0
    ensures Val(b, s) == 0
  {
    if s != [] {
      ValZeros(b, s[1..]);
      assert 0 * Pow(b, |s| - 1) == 0;
    }
  }

  /** A number below another of the same length has no larger leading digit. */
  lemma LeadingDigitLe(b: nat, s: seq<nat>, t: seq<nat>)
    requires |s| == |t| > 0 && AllDigits(b, t)
    requires Val(b, s) < Val(b, t)
    ensures s[0] <= t[0]
  {
    var p := Pow(b, |s| - 1);
    ValBound(b, t[1..]);
    assert (t[0] + 1) * p == t[0] * p + p;
    MulLtCancel(s[0], t[0] + 1, p);
  }

  /** A number below Pow(b, k) has only zeros above its last k digits. */
  lemma {:induction false} LeadingZeros(b: nat, s: seq<nat>, k: nat)
    requires k <= |s| && b >= 1 && Val(b, s) < Pow(b, k)
    ensures forall i :: 0 <= i < |s| - k ==> s[i] == 0
    ensures Val(b, s) == Val(b, s[|s| - k..])
    decreases |s|
  {
    if |s| == k {
      assert s[0..] == s;
    } else {
      var p := Pow(b, |s| - 1);
      PowAdd(b, |s| - 1 - k, k);
      MulLe(1, Pow(b, |s| - 1 - k), Pow(b, k));
      assert Pow(b, k) <= p;
      if s[0] > 0 {
        MulLe(1, s[0], p);
      }
      assert s[0] * p == 0;
      LeadingZeros(b, s[1..], k);
      assert forall i :: 1 <= i < |s| ==> s[i] == s[1..][i - 1];
      assert s[1..][|s| - 1 - k..] == s[|s| - k..];
    }
  }
}
