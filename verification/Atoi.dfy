/** atoi of common/libc/stdlib/atoi.c, in 32-bit arithmetic. */
module Atoi {
  import opened Numbers
  import Words

  const WORD: nat := 0x1_0000_0000

  /** An unsigned int converted to int. */
  function ToInt(u: nat): (i: int)
    requires u < WORD
    ensures -(WORD / 2) <= i < WORD / 2 && (i - u) % WORD == 0
  {
    if u < WORD / 2 then u else u - WORD
  }

  /** The text after leading blanks. */
  function SkipBlanks(s: string): (r: string)
  {
    if s != [] && (s[0] == ' ' || s[0] == '\t') then SkipBlanks(s[1..]) else s
  }

  /** The decimal digits that a text starts with. */
  function LeadingDigits(s: string): (d: string)
  {
    if s != [] && '0' <= s[0] <= '9' then [s[0]] + LeadingDigits(s[1..]) else []
  }

  /** Blanks, a sign, digits; anything behind the digits is ignored and the value wraps. */
  function Meaning(s: string): (i: int)
  {
    var t := SkipBlanks(s);
    var neg := t != [] && t[0] == '-';
    var u := if neg || (t != [] && t[0] == '+') then t[1..] else t;
    var v := Value(LeadingDigits(u), 10) % WORD;
    ToInt(if neg then (WORD - v) % WORD else v)
  }

  lemma ShiftIn(v: nat, d: nat)
    ensures (v % WORD * 10 + d) % WORD == (v * 10 + d) % WORD
  {
    var q, r := v / WORD, v % WORD;
    var x := r * 10 + d;
    Words.DivUnique(v * 10 + d, WORD, 10 * q + x / WORD, x % WORD);
  }

  /** The digits read so far and those still ahead. */
  lemma {:induction false} LeadingSplit(s: string, i: nat)
    requires i <= |s| && Decimal(s[..i])
    ensures LeadingDigits(s) == s[..i] + LeadingDigits(s[i..])
  {
    if i == 0 {
      assert s[..0] == [] && s[0..] == s;
    } else {
      assert s[1..][..i - 1] == s[1..i] && s[1..][i - 1..] == s[i..];
      assert forall j :: 0 <= j < i - 1 ==> s[1..i][j] == s[..i][j + 1];
      assert s[..i][0] == s[0];
      LeadingSplit(s[1..], i - 1);
      assert s[..i] == [s[0]] + s[1..i];
    }
  }

  method Atoi(s: string) returns (r: int)
    ensures r == Meaning(s)
  {
    var i := 0;
    while i < |s| && (s[i] == ' ' || s[i] == '\t')
      invariant 0 <= i <= |s| && SkipBlanks(s[i..]) == SkipBlanks(s)
    {
      assert s[i..][1..] == s[i + 1..];
      i := i + 1;
    }
    ghost var t := s[i..];
    assert SkipBlanks(t) == t;
    var neg := false;
    if i < |s| && s[i] == '-' {
      neg := true;
      i := i + 1;
    } else if i < |s| && s[i] == '+' {
      i := i + 1;
    }
    ghost var u := s[i..];
    assert u == if neg || (t != [] && t[0] == '+') then t[1..] else t;
    var val := ReadDigits(s, i);
    if neg {
      return ToInt((WORD - val) % WORD);
    }
    return ToInt(val);
  }

  /** The digit loop. */
  method ReadDigits(s: string, start: nat) returns (val: nat)
    requires start <= |s|
    ensures val == Value(LeadingDigits(s[start..]), 10) % WORD
  {
    ValueNone();
    hide Value, LeadingDigits;
    assert s[start..start] == [];
    var i := start;
    val := 0;
    while i < |s|
      invariant start <= i <= |s| && Decimal(s[start..i]) && val == Value(s[start..i], 10) % WORD
    {
      if !('0' <= s[i] <= '9') {
        break;
      }
      var digit := DigitValue(s[i]);
      assert s[start..i + 1] == s[start..i] + [s[i]];
      ValueAppend(s[start..i], s[i], 10);
      ShiftIn(Value(s[start..i], 10), digit);
      val := (val * 10 + digit) % WORD;
      i := i + 1;
    }
    assert s[start..][..i - start] == s[start..i] && s[start..][i - start..] == s[i..];
    LeadingSplit(s[start..], i - start);
    NoDigits(s[i..]);
    assert s[start..i] + [] == s[start..i];
  }

  lemma ValueNone()
    ensures Value([], 10) == 0
  {
  }

  lemma NoDigits(s: string)
    requires s == [] || !('0' <= s[0] <= '9')
    ensures LeadingDigits(s) == []
  {
  }

  // ---- What it reads ----

  predicate Blank(text: string)
  {
    forall i :: 0 <= i < |text| ==> text[i] == ' ' || text[i] == '\t'
  }

  lemma {:induction false} SkipAll(blanks: string, s: string)
    requires Blank(blanks)
    ensures SkipBlanks(blanks + s) == SkipBlanks(s)
  {
    if blanks == [] {
      assert blanks + s == s;
    } else {
      assert (blanks + s)[1..] == blanks[1..] + s;
      SkipAll(blanks[1..], s);
    }
  }

  lemma {:induction false} LeadingAll(digits: string, tail: string)
    requires Decimal(digits) && (tail == [] || !('0' <= tail[0] <= '9'))
    ensures LeadingDigits(digits + tail) == digits
  {
    if digits == [] {
      assert digits + tail == tail;
    } else {
      assert (digits + tail)[1..] == digits[1..] + tail;
      LeadingAll(digits[1..], tail);
    }
  }

  /** The int that a sign and digits stand for. */
  function SignedValue(neg: bool, digits: string): (i: int)
  {
    var v := Value(digits, 10) % WORD;
    ToInt(if neg then (WORD - v) % WORD else v)
  }

  /** Any blanks and tabs, a sign or none, digits, and anything that does not begin with a digit. */
  lemma Reads(blanks: string, sign: string, digits: string, tail: string)
    requires Blank(blanks) && (sign == "" || sign == "+" || sign == "-") && Decimal(digits) && digits != []
    requires tail == [] || !('0' <= tail[0] <= '9')
    ensures Meaning(blanks + sign + digits + tail) == SignedValue(sign == "-", digits)
  {
    var u := digits + tail;
    var t := sign + u;
    var s := blanks + sign + digits + tail;
    assert s == blanks + t;
    SkipAll(blanks, t);
    assert u[0] == digits[0] && '0' <= digits[0] <= '9';
    assert t[0] == (if sign == "" then digits[0] else sign[0]);
    assert SkipBlanks(s) == t;
    assert (if sign == "" then t else t[1..]) == u;
    LeadingAll(digits, tail);
    hide Value, SkipBlanks, LeadingDigits, ToInt;
    assert Meaning(s) == SignedValue(sign == "-", digits);
  }

  /** The value is the number itself if and only if an int can hold it. */
  lemma ReadsExactly(neg: bool, digits: string)
    ensures var v: int := Value(digits, 10); var n := if neg then -v else v;
            SignedValue(neg, digits) == n <==> -(WORD as int / 2) <= n < WORD / 2
  {
    hide Value;
  }

  /** Without a digit behind the blanks and the sign the value is zero. */
  lemma ReadsNothing(blanks: string, sign: string, tail: string)
    requires Blank(blanks) && (sign == "" || sign == "+" || sign == "-")
    requires tail == [] || tail[0] !in " \t+-0123456789"
    ensures Meaning(blanks + sign + tail) == 0
  {
    var t := sign + tail;
    assert blanks + sign + tail == blanks + t;
    SkipAll(blanks, t);
    assert t != [] ==> t[0] == (if sign == "" then tail[0] else sign[0]);
    assert SkipBlanks(t) == t;
    assert (if sign == "" then t else t[1..]) == tail;
    NoDigits(tail);
    ValueNone();
    hide Value, SkipBlanks, LeadingDigits;
  }
}
