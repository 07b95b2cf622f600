/** What printf prints: strings and characters unbroken with only padding around them, and numbers
    whose digits give the argument back in the base that the directive asks for. */
module PrintfText {
  import opened Common
  import opened Numbers
  import opened Printf
  import Atoi
  import Words

  // ---- Strings and characters ----

  /** The text is core with fill characters on one side, as wide as the field asks for. */
  ghost predicate Padded(text: string, f: Field, core: string)
  {
    && |text| == (if f.spacing > |core| then f.spacing else |core|)
    && if f.rightspc then text[..|core|] == core && forall i :: |core| <= i < |text| ==> text[i] == f.fillchar
       else text[|text| - |core|..] == core && forall i :: 0 <= i < |text| - |core| ==> text[i] == f.fillchar
  }

  lemma LayoutPads(f: Field, core: string)
    ensures Padded(Layout(f, "", "", core), f, core)
  {
    var text, n := Layout(f, "", "", core), Padding(f, |core|);
    assert text == if f.rightspc then core + Fill(f.fillchar, n) else Fill(f.fillchar, n) + core;
    hide Layout;
  }

  /** %s prints the string, or "(null)" for a null pointer. */
  lemma StringText(f: Field, arg: Arg)
    requires f.inPct && ArgOk(f, 's', arg)
    ensures arg.Str? ==> Padded(Sent(f, 's', arg), f, arg.s)
    ensures arg.NullStr? ==> Padded(Sent(f, 's', arg), f, "(null)")
  {
    hide Layout, Padded;
    LayoutPads(f, if arg.Str? then arg.s else "(null)");
  }

  /** %c prints the character, or nothing for the NUL. */
  lemma CharacterText(f: Field, v: int)
    requires f.inPct && 0 <= v < 256
    ensures Padded(Sent(f, 'c', Int(v)), f, if v == 0 then "" else [v as char])
  {
    hide Layout, Padded;
    LayoutPads(f, CharText(v));
  }

  /** %% prints a per cent sign, and a character that is no directive prints itself. */
  lemma OtherText(f: Field, ch: char)
    requires f.inPct && ch !in "#-lz0123456789doupxsc"
    ensures Padded(Sent(f, ch, NullStr), f, [ch])
  {
    hide Layout, Padded;
    LayoutPads(f, [ch]);
  }

  // ---- Reading a number back ----

  /** The digits of a base that a text starts with. */
  function LeadingIn(s: string, base: nat): (d: string)
  {
    if s != [] && DigitValue(s[0]) < base then [s[0]] + LeadingIn(s[1..], base) else []
  }

  /** Blanks, the prefix and digits; anything behind the digits is ignored. */
  function ReadBack(text: string, prefix: string, base: nat): (r: Option<nat>)
  {
    var t := Atoi.SkipBlanks(text);
    if prefix <= t then Some(Value(LeadingIn(t[|prefix|..], base), base)) else None
  }

  lemma {:induction false} LeadingPart(digits: string, tail: string, base: nat)
    requires DigitsIn(digits, base) && (tail == [] || DigitValue(tail[0]) >= base)
    ensures LeadingIn(digits + tail, base) == digits
  {
    hide DigitValue;
    if digits == [] {
      assert digits + tail == tail;
    } else {
      assert (digits + tail)[1..] == digits[1..] + tail;
      LeadingPart(digits[1..], tail, base);
    }
  }

  /** The prefixes of the three bases. */
  predicate IsPrefix(prefix: string)
  {
    prefix == "" || prefix == "0" || prefix == "0x"
  }

  lemma ReadParts(blanks: nat, prefix: string, digits: string, tail: string, base: nat)
    requires base <= 16 && IsPrefix(prefix) && DigitsIn(digits, base) && digits != []
    requires tail == [] || DigitValue(tail[0]) >= base
    ensures ReadBack(Fill(' ', blanks) + prefix + digits + tail, prefix, base) == Some(Value(digits, base))
  {
    var t := prefix + (digits + tail);
    var text := Fill(' ', blanks) + prefix + digits + tail;
    assert text == Fill(' ', blanks) + t;
    Atoi.SkipAll(Fill(' ', blanks), t);
    assert t[0] == (if prefix == "" then digits[0] else '0') && DigitValue(digits[0]) < 16;
    assert Atoi.SkipBlanks(t) == t;
    assert prefix <= t && t[|prefix|..] == digits + tail;
    hide Value, Fill, Atoi.SkipBlanks, LeadingIn, DigitsIn, DigitValue;
    LeadingPart(digits, tail, base);
  }

  /** '-' and '0' together put zeros behind a text of some length. */
  predicate ZerosRight(f: Field, len: nat)
  {
    f.rightspc && f.fillchar == '0' && f.spacing > len
  }

  lemma ZerosIn(k: nat, base: nat)
    requires base > 0
    ensures DigitsIn(Zeros(k), base)
  {
  }

  /** A positive power of the base changes every number but zero. */
  lemma PowerChanges(v: nat, base: nat, k: nat)
    requires 2 <= base && k > 0
    ensures v * Words.Pow(base, k) == v <==> v == 0
  {
    PowerGrows(base, k);
    var p := Words.Pow(base, k);
    hide Words.Pow;
    if v > 0 {
      assert v * p == v + v * (p - 1);
      Words.MulPositive(v - 1, p - 2);
      assert v * (p - 1) > 0;
    }
  }

  lemma {:induction false} PowerGrows(base: nat, k: nat)
    requires 2 <= base && k > 0
    ensures Words.Pow(base, k) >= 2
  {
    if k == 1 {
      assert Words.Pow(base, 0) == 1;
      assert Words.Pow(base, 1) == base * 1;
    } else {
      PowerGrows(base, k - 1);
      var p := Words.Pow(base, k - 1);
      assert Words.Pow(base, k) == base * p;
      hide Words.Pow;
      assert base * p >= 2 * p;
    }
  }

  lemma TextReads(f: Field, prefix: string, base: nat, v: nat)
    requires 2 <= base <= 16 && IsPrefix(prefix) && (f.fillchar == ' ' || f.fillchar == '0')
    ensures ReadBack(Layout(f, "", prefix, TextOf(v, base)), prefix, base) == Some(v)
       <==> v == 0 || !ZerosRight(f, |prefix| + |TextOf(v, base)|)
  {
    hide Value, TextOf, ReadBack;
    var digits := TextOf(v, base);
    var k, text := Padding(f, |prefix| + |digits|), Layout(f, "", prefix, digits);
    ValueOfText(v, base);
    TextDigits(v, base);
    ZerosIn(k, base);
    if f.fillchar == ' ' {
      ReadsBlanks(f, prefix, digits, base, k);
    } else {
      ReadsZeros(f, prefix, digits, base, k);
      if k > 0 {
        PowerChanges(v, base, k);
      }
    }
  }

  lemma ReadsBlanks(f: Field, prefix: string, digits: string, base: nat, k: nat)
    requires base <= 16 && IsPrefix(prefix) && DigitsIn(digits, base) && digits != [] && f.fillchar == ' '
    requires k == Padding(f, |prefix| + |digits|)
    ensures ReadBack(Layout(f, "", prefix, digits), prefix, base) == Some(Value(digits, base))
  {
    hide Value, ReadBack, DigitsIn;
    var text := Layout(f, "", prefix, digits);
    if f.rightspc {
      assert text == Fill(' ', 0) + prefix + digits + Fill(' ', k);
      ReadParts(0, prefix, digits, Fill(' ', k), base);
    } else {
      assert text == Fill(' ', k) + prefix + digits + [];
      ReadParts(k, prefix, digits, [], base);
    }
  }

  lemma ReadsZeros(f: Field, prefix: string, digits: string, base: nat, k: nat)
    requires base <= 16 && IsPrefix(prefix) && DigitsIn(digits, base) && digits != [] && f.fillchar == '0'
    requires k == Padding(f, |prefix| + |digits|) && DigitsIn(Zeros(k), base)
    ensures ReadBack(Layout(f, "", prefix, digits), prefix, base)
         == Some(if f.rightspc && k > 0 then Value(digits, base) * Words.Pow(base, k) else Value(digits, base))
  {
    hide Value, ReadBack, Words.Pow, Layout, DigitsIn, IsPrefix;
    ZerosLayout(f, prefix, digits, k);
    JoinIn(digits, Zeros(k), base);
    JoinIn(Zeros(k), digits, base);
    if f.rightspc {
      ReadParts(0, prefix, digits + Zeros(k), [], base);
      TrailingZeros(digits, k, base);
      assert k == 0 ==> digits + Zeros(k) == digits;
    } else {
      ReadParts(0, prefix, Zeros(k) + digits, [], base);
      LeadingZeros(k, digits, base);
    }
  }

  lemma ZerosLayout(f: Field, prefix: string, digits: string, k: nat)
    requires f.fillchar == '0' && k == Padding(f, |prefix| + |digits|)
    ensures f.rightspc ==> Layout(f, "", prefix, digits) == Fill(' ', 0) + prefix + (digits + Zeros(k)) + []
    ensures !f.rightspc ==> Layout(f, "", prefix, digits) == Fill(' ', 0) + prefix + (Zeros(k) + digits) + []
  {
    assert Fill('0', k) == Zeros(k) && Fill(' ', 0) == [];
    hide Fill;
  }

  lemma JoinIn(a: string, b: string, base: nat)
    requires DigitsIn(a, base) && DigitsIn(b, base)
    ensures DigitsIn(a + b, base)
  {
    hide DigitValue;
  }

  // ---- The directives ----

  /** For every field, reading the text back in hexadecimal gives the argument, except exactly when
      zeros are put behind a nonzero number; with '#' the digits have the prefix 0x. */
  lemma HexReads(f: Field, v: nat)
    requires f.fillchar == ' ' || f.fillchar == '0'
    ensures var prefix := if f.altformat then "0x" else "";
            ReadBack(IntegerText(f, 'x', v), prefix, 16) == Some(v)
            <==> v == 0 || !ZerosRight(f, |prefix| + |TextOf(v, 16)|)
  {
    hide Layout, TextOf, ReadBack;
    TextReads(f, if f.altformat then "0x" else "", 16, v);
  }

  /** A pointer always has the prefix. */
  lemma PointerReads(f: Field, v: nat)
    requires f.fillchar == ' ' || f.fillchar == '0'
    ensures ReadBack(IntegerText(f, 'p', v), "0x", 16) == Some(v) <==> v == 0 || !ZerosRight(f, 2 + |TextOf(v, 16)|)
  {
    hide Layout, TextOf, ReadBack;
    TextReads(f, "0x", 16, v);
  }

  lemma OctalReads(f: Field, v: nat)
    requires f.fillchar == ' ' || f.fillchar == '0'
    ensures var prefix := if f.altformat then "0" else "";
            ReadBack(IntegerText(f, 'o', v), prefix, 8) == Some(v)
            <==> v == 0 || !ZerosRight(f, |prefix| + |TextOf(v, 8)|)
  {
    hide Layout, TextOf, ReadBack;
    TextReads(f, if f.altformat then "0" else "", 8, v);
  }

  /** Decimal numbers have no prefix. */
  lemma DecimalReads(f: Field, v: nat)
    requires f.fillchar == ' ' || f.fillchar == '0'
    ensures ReadBack(IntegerText(f, 'u', v), "", 10) == Some(v) <==> v == 0 || !ZerosRight(f, |TextOf(v, 10)|)
  {
    hide Layout, TextOf, ReadBack;
    TextReads(f, "", 10, v);
  }

  /** With no field width the text is the prefix and the digits alone, without superfluous zeros. */
  lemma BareHex(f: Field, v: nat)
    requires f.spacing == 0
    ensures IsNumeral(IntegerText(f, 'x', v), if f.altformat then "0x" else "", v, 16)
    ensures IsNumeral(IntegerText(f, 'p', v), "0x", v, 16)
  {
    hide IsNumeral, TextOf, Layout;
    Bare(f, "0x", v, 16);
    Bare(f, "", v, 16);
  }

  lemma BareOctal(f: Field, v: nat)
    requires f.spacing == 0
    ensures IsNumeral(IntegerText(f, 'o', v), if f.altformat then "0" else "", v, 8)
  {
    hide IsNumeral, TextOf, Layout;
    Bare(f, if f.altformat then "0" else "", v, 8);
  }

  lemma BareDecimal(f: Field, v: nat)
    requires f.spacing == 0
    ensures IsNumeral(IntegerText(f, 'u', v), "", v, 10) && IsNumeral(IntegerText(f, 'd', v), "", v, 10)
    ensures v > 0 ==> IsNumeral(IntegerText(f, 'd', 0 - v), "-", v, 10)
  {
    hide IsNumeral, TextOf, Layout;
    Bare(f, "", v, 10);
    Bare(f, "-", v, 10);
    OnePrefix(f, "-", TextOf(v, 10));
  }

  lemma OnePrefix(f: Field, prefix: string, digits: string)
    ensures Layout(f, prefix, "", digits) == Layout(f, "", prefix, digits)
  {
  }

  ghost predicate IsNumeral(text: string, prefix: string, v: nat, base: nat)
  {
    && prefix <= text && |text| > |prefix|
    && var digits := text[|prefix|..];
       Value(digits, base) == v && DigitsIn(digits, base) && (digits[0] == '0' ==> v == 0)
  }

  lemma Bare(f: Field, prefix: string, v: nat, base: nat)
    requires f.spacing == 0 && 2 <= base <= 16
    ensures IsNumeral(Layout(f, "", prefix, TextOf(v, base)), prefix, v, base)
  {
    hide Value, TextOf, DigitsIn;
    var digits := TextOf(v, base);
    assert Layout(f, "", prefix, digits) == prefix + digits;
    assert (prefix + digits)[|prefix|..] == digits;
    ValueOfText(v, base);
    TextDigits(v, base);
  }
}
