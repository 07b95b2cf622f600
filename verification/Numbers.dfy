/** Number text: the digits that __pf_printnum of common/libc/printf/__printf.c writes and what
    atoi of common/libc/stdlib/atoi.c reads. */
module Numbers {
  import Words

  const DIGITS: string := "0123456789abcdef"

  function Digit(d: nat): (c: char)
    requires d < 16
  {
    DIGITS[d]
  }

  /** strchr on the digit list: the value of a digit character. */
  function DigitValue(c: char): (v: nat)
  {
    if '0' <= c <= '9' then c as nat - '0' as nat
    else if 'a' <= c <= 'f' then c as nat - 'a' as nat + 10
    else 16
  }

  lemma DigitRoundTrip(d: nat)
    requires d < 16
    ensures DigitValue(Digit(d)) == d && Digit(d) == "0123456789abcdef"[d]
    ensures d < 10 ==> '0' <= Digit(d) <= '9'
  {
  }

  /** The value of a text read from left to right. */
  function Value(text: string, base: nat): (v: nat)
  {
    if text == [] then 0 else Value(text[..|text| - 1], base) * base + DigitValue(text[|text| - 1])
  }

  /** The text of a number, with no superfluous zeros. */
  function TextOf(n: nat, base: nat): (text: string)
    requires 2 <= base <= 16
    ensures text != []
  {
    if n < base then [Digit(n)] else TextOf(n / base, base) + [Digit(n % base)]
  }

  lemma ValueAppend(text: string, c: char, base: nat)
    ensures Value(text + [c], base) == Value(text, base) * base + DigitValue(c)
  {
    var t := text + [c];
    assert t[..|t| - 1] == text;
  }

  lemma {:induction false} ValueOfText(n: nat, base: nat)
    requires 2 <= base <= 16
    ensures Value(TextOf(n, base), base) == n
  {
    if n < base {
      DigitRoundTrip(n);
      ValueAppend([], Digit(n), base);
      assert [] + [Digit(n)] == [Digit(n)];
    } else {
      ValueOfText(n / base, base);
      ValueJoin(n, base);
    }
  }

  lemma ValueJoin(n: nat, base: nat)
    requires 2 <= base <= 16 && n >= base && Value(TextOf(n / base, base), base) == n / base
    ensures Value(TextOf(n, base), base) == n
  {
    var text, c := TextOf(n / base, base), Digit(n % base);
    assert TextOf(n, base) == text + [c];
    DigitRoundTrip(n % base);
    hide Value, TextOf, Digit, DigitValue;
    ValueAppend(text, c, base);
    Words.DivMod(n, base);
  }

  /** Every character of a decimal text is a decimal digit. */
  predicate Decimal(text: string)
  {
    forall i :: 0 <= i < |text| ==> '0' <= text[i] <= '9'
  }

  lemma {:induction false} TextDecimal(n: nat)
    ensures Decimal(TextOf(n, 10))
  {
    DigitRoundTrip(n % 10);
    if n >= 10 {
      TextDecimal(n / 10);
    }
  }

  function Zeros(k: nat): (z: string)
    ensures |z| == k
  {
    seq(k, _ => '0')
  }

  /** Zeros in front do not change the value. */
  lemma {:induction false} LeadingZeros(k: nat, text: string, base: nat)
    ensures Value(Zeros(k) + text, base) == Value(text, base)
  {
    var t := Zeros(k) + text;
    if text == [] {
      assert t == Zeros(k);
      if k > 0 {
        assert t[..|t| - 1] == Zeros(k - 1) + [];
        LeadingZeros(k - 1, [], base);
      }
    } else {
      assert t[..|t| - 1] == Zeros(k) + text[..|text| - 1];
      LeadingZeros(k, text[..|text| - 1], base);
    }
  }

  /** Each zero behind multiplies by the base. */
  lemma {:induction false} TrailingZeros(text: string, k: nat, base: nat)
    ensures Value(text + Zeros(k), base) == Value(text, base) * Words.Pow(base, k)
  {
    if k == 0 {
      assert text + Zeros(0) == text;
    } else {
      var t := text + Zeros(k);
      assert t[..|t| - 1] == text + Zeros(k - 1);
      TrailingZeros(text, k - 1, base);
      Regroup(Value(text, base), Words.Pow(base, k - 1), base);
    }
  }

  lemma Regroup(v: nat, p: nat, base: nat)
    ensures v * p * base == v * (base * p)
  {
  }

  /** Every character of a text is a digit of the base. */
  predicate DigitsIn(text: string, base: nat)
  {
    forall i :: 0 <= i < |text| ==> DigitValue(text[i]) < base
  }

  /** The text of a number has digits of its base only, and begins with a zero only if it is the
      zero. */
  lemma {:induction false} TextDigits(n: nat, base: nat)
    requires 2 <= base <= 16
    ensures DigitsIn(TextOf(n, base), base) && (TextOf(n, base)[0] == '0' ==> n == 0)
  {
    if n < base {
      DigitRoundTrip(n);
    } else {
      TextDigits(n / base, base);
      JoinDigits(n, base);
    }
  }

  lemma JoinDigits(n: nat, base: nat)
    requires 2 <= base <= n && base <= 16 && DigitsIn(TextOf(n / base, base), base)
    requires TextOf(n / base, base)[0] == '0' ==> n / base == 0
    ensures DigitsIn(TextOf(n, base), base) && TextOf(n, base)[0] != '0'
  {
    var text, c := TextOf(n / base, base), Digit(n % base);
    assert TextOf(n, base) == text + [c];
    DigitRoundTrip(n % base);
    Words.DivMod(n, base);
    assert n / base != 0;
    hide TextOf, Digit, DigitValue;
  }

  // ---- __pf_printnum ----

  /** NUMBER_BUF_SIZE for a 64-bit long long. */
  const NUMBER_BUF_SIZE: nat := 64 / 3 + 2

  const LLIMIT: nat := 0x1_0000_0000_0000_0000

  /** The digits of the number, from right to left into a buffer of NUMBER_BUF_SIZE characters
      whose last place is the terminating NUL.  They always fit. */
  method PrintDigits(num: nat, base: nat) returns (buf: array<char>, x: nat)
    requires num < LLIMIT && base in {8, 10, 16}
    ensures fresh(buf) && buf.Length == NUMBER_BUF_SIZE && x < NUMBER_BUF_SIZE - 1
    ensures buf[NUMBER_BUF_SIZE - 1] == '\0'
    ensures buf[x..NUMBER_BUF_SIZE - 1] == TextOf(num, base)
    ensures Value(buf[x..NUMBER_BUF_SIZE - 1], base) == num
  {
    hide Value, TextOf, Div, Mod, Digit, Printing;
    buf := new char[NUMBER_BUF_SIZE];
    var p: int := NUMBER_BUF_SIZE - 1;
    buf[p] := '\0';
    p := p - 1;
    var xnum: nat := num;
    ghost var k := 1;
    PrintFirst(num, base);
    buf[p] := Digit(Mod(xnum, base));
    p := p - 1;
    xnum := Div(xnum, base);
    assert buf[p + 1..NUMBER_BUF_SIZE - 1] == [Digit(Mod(num, base))];
    while xnum > 0
      invariant 1 <= k <= NUMBER_BUF_SIZE - 1 && p == NUMBER_BUF_SIZE - 2 - k
      invariant buf[NUMBER_BUF_SIZE - 1] == '\0'
      invariant Printing(num, base, xnum, k, buf[p + 1..NUMBER_BUF_SIZE - 1])
    {
      ghost var tail := buf[p + 1..NUMBER_BUF_SIZE - 1];
      PrintStep(num, base, xnum, k, tail);
      buf[p] := Digit(Mod(xnum, base));
      assert buf[p..NUMBER_BUF_SIZE - 1] == [Digit(Mod(xnum, base))] + tail;
      p, k := p - 1, k + 1;
      xnum := Div(xnum, base);
    }
    x := p + 1;
    PrintLast(num, base, k, buf[x..NUMBER_BUF_SIZE - 1]);
  }

  /** k digits are printed and xnum is left. */
  ghost predicate Printing(num: nat, base: nat, xnum: nat, k: nat, printed: string)
    requires 2 <= base <= 16
  {
    TextOf(num, base) == Rest(xnum, base) + printed && Within(xnum, base, k, num)
  }

  lemma PrintFirst(num: nat, base: nat)
    requires 2 <= base <= 16
    ensures Printing(num, base, Div(num, base), 1, [Digit(Mod(num, base))])
  {
    hide TextOf, Div, Mod, Digit, Within, Rest;
    assert TextOf(num, base) + [] == TextOf(num, base);
    WithinAtFirst(num, base);
    DigitStep(num, base, num, 0, []);
    assert [Digit(Mod(num, base))] + [] == [Digit(Mod(num, base))];
  }

  lemma PrintStep(num: nat, base: nat, xnum: nat, k: nat, printed: string)
    requires 8 <= base <= 16 && num < LLIMIT && xnum > 0 && Printing(num, base, xnum, k, printed)
    ensures k < 22 && Printing(num, base, Div(xnum, base), k + 1, [Digit(Mod(xnum, base))] + printed)
  {
    hide TextOf, Div, Mod, Digit, Within, Rest;
    Room(xnum, base, k, num);
    RestOf(xnum, base);
    DigitStep(num, base, xnum, k, printed);
  }

  lemma PrintLast(num: nat, base: nat, k: nat, printed: string)
    requires 2 <= base <= 16 && Printing(num, base, 0, k, printed)
    ensures printed == TextOf(num, base) && Value(printed, base) == num
  {
    hide TextOf, Value, Within, Rest;
    RestOf(0, base);
    assert [] + printed == printed;
    ValueOfText(num, base);
  }

  function Div(x: nat, base: nat): (q: nat)
    requires base > 0
    ensures base >= 2 && x > 0 ==> q < x
  {
    Words.DivMod(x, base);
    x / base
  }

  function Mod(x: nat, base: nat): (r: nat)
    requires base > 0
    ensures r < base
  {
    x % base
  }

  /** What is still to be printed. */
  function Rest(xnum: nat, base: nat): (text: string)
    requires 2 <= base <= 16
  {
    if xnum == 0 then [] else TextOf(xnum, base)
  }

  /** What is left after k digits is within the number. */
  ghost predicate Within(xnum: nat, base: nat, k: nat, num: nat)
  {
    xnum * Words.Pow(base, k) <= num
  }

  lemma RestOf(xnum: nat, base: nat)
    requires 2 <= base <= 16
    ensures Rest(xnum, base) == if xnum == 0 then [] else TextOf(xnum, base)
  {
  }

  lemma WithinAtFirst(num: nat, base: nat)
    ensures Within(num, base, 0, num)
  {
    assert Words.Pow(base, 0) == 1;
  }

  /** One digit moves from what is to be printed to what is printed. */
  lemma DigitStep(num: nat, base: nat, xnum: nat, k: nat, tail: string)
    requires 2 <= base <= 16 && TextOf(num, base) == TextOf(xnum, base) + tail && Within(xnum, base, k, num)
    ensures TextOf(num, base) == Rest(Div(xnum, base), base) + ([Digit(Mod(xnum, base))] + tail)
    ensures Within(Div(xnum, base), base, k + 1, num)
  {
    Shrinks(num, base, xnum, k);
    TextStep(xnum, base);
    hide Words.Pow, TextOf, Within;
    assert Rest(Div(xnum, base), base) + [Digit(Mod(xnum, base))] + tail
        == Rest(Div(xnum, base), base) + ([Digit(Mod(xnum, base))] + tail);
  }

  lemma TextStep(n: nat, base: nat)
    requires 2 <= base <= 16
    ensures TextOf(n, base) == Rest(Div(n, base), base) + [Digit(Mod(n, base))]
  {
    if n < base {
      Words.DivUnique(n, base, 0, n);
    } else {
      DivPositive(n, base);
    }
  }

  lemma DivPositive(n: nat, base: nat)
    requires 0 < base <= n
    ensures n / base > 0
  {
    Words.DivMod(n, base);
    var q, r := n / base, n % base;
    assert q == 0 ==> q * base == 0;
  }

  /** With at least three bits for each digit, a number below 2^64 is used up by 22 digits. */
  lemma Room(xnum: nat, base: nat, k: nat, num: nat)
    requires base >= 8 && Within(xnum, base, k, num) && num < LLIMIT && xnum > 0
    ensures k < 22
  {
    if k >= 22 {
      PowMonotone(8, base, k);
      PowGrows(8, 22, k);
      Eight();
      Words.MulLe(1, xnum, Words.Pow(base, k));
      assert false;
    }
  }

  lemma Eight()
    ensures Words.Pow(8, 22) >= LLIMIT
  {
    assert Words.Pow(8, 5) == 0x8000;
    Words.PowAdd(8, 5, 5);
    Words.PowAdd(8, 10, 10);
    Words.PowAdd(8, 20, 2);
    assert Words.Pow(8, 2) == 64;
  }

  lemma {:induction false} PowMonotone(a: nat, b: nat, k: nat)
    requires 1 <= a <= b
    ensures Words.Pow(a, k) <= Words.Pow(b, k)
  {
    if k > 0 {
      PowMonotone(a, b, k - 1);
      Products(a, b, Words.Pow(a, k - 1), Words.Pow(b, k - 1));
    }
  }

  lemma Products(a: nat, b: nat, x: nat, y: nat)
    requires a <= b && x <= y
    ensures a * x <= b * y
  {
  }

  lemma {:induction false} PowGrows(b: nat, j: nat, k: nat)
    requires b >= 1 && j <= k
    ensures Words.Pow(b, j) <= Words.Pow(b, k)
  {
    if j < k {
      PowGrows(b, j, k - 1);
      Products(1, b, Words.Pow(b, k - 1), Words.Pow(b, k - 1));
    }
  }

  lemma Shrinks(num: nat, base: nat, xnum: nat, k: nat)
    requires base > 0 && xnum * Words.Pow(base, k) <= num
    ensures (xnum / base) * Words.Pow(base, k + 1) <= num
  {
    var p := Words.Pow(base, k);
    Words.DivMod(xnum, base);
    var q := xnum / base;
    assert Words.Pow(base, k + 1) == base * p;
    Words.Assoc(q, base, p);
    Products(q * base, xnum, p, p);
  }
}
