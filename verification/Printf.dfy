/** The field formatting of common/libc/printf/__printf.c, and reading a printed int back with
    atoi. */
module Printf {
  import opened Numbers
  import Atoi
  import Words

  datatype Size = INTSZ | LONGSZ | LLONGSZ | SIZETSZ

  /** What va_arg gives. */
  datatype Arg = Int(v: int) | Str(s: string) | NullStr

  /** The state of a %-field between two characters of the format. */
  datatype Field = Field(inPct: bool, size: Size, spacing: nat, rightspc: bool, fillchar: char, altformat: bool)

  const NO_FIELD := Field(false, INTSZ, 0, false, ' ', false)

  predicate IsModifier(ch: char)
  {
    ch in "#-lz0123456789"
  }

  predicate IsInteger(ch: char)
  {
    ch in "doupx"
  }

  /** The field after a modifier character. */
  function Modified(f: Field, ch: char): (r: Field)
    requires IsModifier(ch)
  {
    if ch == '#' then f.(altformat := true)
    else if ch == '-' then f.(rightspc := true)
    else if ch == 'l' then f.(size := if f.size == LONGSZ then LLONGSZ else LONGSZ)
    else if ch == 'z' then f.(size := SIZETSZ)
    else if ch == '0' && f.spacing == 0 then f.(fillchar := '0')
    else f.(spacing := f.spacing * 10 + DigitValue(ch))
  }

  function Fill(c: char, n: nat): (s: string)
    ensures |s| == n
  {
    seq(n, _ => c)
  }

  /** How much padding a text of some length needs. */
  function Padding(f: Field, len: nat): (n: nat)
  {
    if f.spacing > len then f.spacing - len else 0
  }

  /** Text in a field: blanks go in front of the prefixes, zeros behind them, and padding on the
      right behind everything. */
  function Layout(f: Field, prefix: string, prefix2: string, stuff: string): (s: string)
    ensures |s| >= f.spacing && |s| >= |prefix| + |prefix2| + |stuff|
    ensures |s| == f.spacing || |s| == |prefix| + |prefix2| + |stuff|
  {
    var pad := Fill(f.fillchar, Padding(f, |prefix| + |prefix2| + |stuff|));
    (if !f.rightspc && f.fillchar != '0' then pad else []) + prefix + prefix2
    + (if !f.rightspc && f.fillchar == '0' then pad else []) + stuff
    + (if f.rightspc then pad else [])
  }

  /** Appending the parts one after the other appends the text. */
  lemma LayoutParts(out: string, f: Field, prefix: string, prefix2: string, stuff: string,
                    front: string, middle: string, back: string)
    requires var pad := Fill(f.fillchar, Padding(f, |prefix| + |prefix2| + |stuff|));
             && front == (if !f.rightspc && f.fillchar != '0' then pad else [])
             && middle == (if !f.rightspc && f.fillchar == '0' then pad else [])
             && back == (if f.rightspc then pad else [])
    ensures out + front + prefix + prefix2 + middle + stuff + back == out + Layout(f, prefix, prefix2, stuff)
    ensures |front| + |prefix| + |prefix2| + |middle| + |stuff| + |back| == |Layout(f, prefix, prefix2, stuff)|
  {
  }

  function BaseOf(ch: char): (b: nat)
    ensures b in {8, 10, 16}
  {
    if ch == 'x' || ch == 'p' then 16 else if ch == 'o' then 8 else 10
  }

  function BasePrefix(f: Field, ch: char): (s: string)
  {
    if !(f.altformat || ch == 'p') then "" else if BaseOf(ch) == 16 then "0x" else if BaseOf(ch) == 8 then "0" else ""
  }

  /** The text of an integer argument. */
  function IntegerText(f: Field, ch: char, v: int): (s: string)
    requires IsInteger(ch) && (ch == 'd' || v >= 0)
  {
    Layout(f, if v < 0 then "-" else "", BasePrefix(f, ch), TextOf(if v < 0 then -v else v, BaseOf(ch)))
  }

  /** An argument that a format character may fetch: of the right kind, and an integer in the
      range of a long long. */
  predicate ArgOk(f: Field, ch: char, arg: Arg)
  {
    if !f.inPct || IsModifier(ch) then true
    else if IsInteger(ch) then
      arg.Int? && (if ch == 'd' then -(LLIMIT as int / 2) <= arg.v < LLIMIT / 2 else 0 <= arg.v < LLIMIT)
    else if ch == 's' then arg.Str? || arg.NullStr?
    else if ch == 'c' then arg.Int?
    else true
  }

  /** The string that %c makes of an int: its low byte, or nothing if that is the NUL. */
  function CharText(v: int): (s: string)
    ensures |s| <= 1
  {
    if v % 256 == 0 then [] else [(v % 256) as char]
  }

  /** What one character of the format prints. */
  function Sent(f: Field, ch: char, arg: Arg): (s: string)
    requires ArgOk(f, ch, arg)
  {
    if !f.inPct then (if ch == '%' then [] else [ch])
    else if IsModifier(ch) then []
    else if IsInteger(ch) then IntegerText(f, ch, arg.v)
    else if ch == 's' then Layout(f, "", "", if arg.Str? then arg.s else "(null)")
    else Layout(f, "", "", if ch == 'c' then CharText(arg.v) else [ch])
  }

  /** The field after one character of the format. */
  function Next(f: Field, ch: char): (r: Field)
  {
    if !f.inPct then (if ch == '%' then f.(inPct := true) else f)
    else if IsModifier(ch) then Modified(f, ch)
    else NO_FIELD
  }

  // ---- The printing code ----

  class PF {
    var out: string
    var charcount: nat
    var inPct: bool
    var size: Size
    var num: nat
    var sign: bool
    var spacing: nat
    var rightspc: bool
    var fillchar: char
    var base: nat
    var baseprefix: bool
    var altformat: bool

    ghost function View(): (f: Field)
      reads this
    {
      Field(inPct, size, spacing, rightspc, fillchar, altformat)
    }

    constructor ()
      ensures out == "" && charcount == 0 && View() == NO_FIELD && !sign && !baseprefix
    {
      out, charcount := "", 0;
      inPct, size, num, sign := false, INTSZ, 0, false;
      spacing, rightspc, fillchar := 0, false, ' ';
      base, baseprefix, altformat := 0, false, false;
    }

    /** __pf_print */
    method Print(txt: string)
      modifies `out, `charcount
      ensures out == old(out) + txt && charcount == old(charcount) + |txt|
    {
      out := out + txt;
      charcount := charcount + |txt|;
    }

    /** __pf_endfield */
    method EndField()
      modifies `inPct, `size, `num, `sign, `spacing, `rightspc, `fillchar, `base, `baseprefix, `altformat
      ensures View() == NO_FIELD && !sign && !baseprefix
    {
      inPct, size, num, sign := false, INTSZ, 0, false;
      spacing, rightspc, fillchar := 0, false, ' ';
      base, baseprefix, altformat := 0, false, false;
    }

    /** __pf_modifier */
    method Modifier(ch: char)
      requires IsModifier(ch)
      modifies `altformat, `rightspc, `size, `spacing, `fillchar
      ensures View() == Modified(old(View()), ch)
    {
      match ch
      case '#' => altformat := true;
      case '-' => rightspc := true;
      case 'l' =>
        if size == LONGSZ {
          size := LLONGSZ;
        } else {
          size := LONGSZ;
        }
      case 'z' => size := SIZETSZ;
      case '0' =>
        if spacing > 0 {
          spacing := spacing * 10;
        } else {
          fillchar := '0';
        }
      case _ =>
        assert '0' < ch <= '9';
        spacing := spacing * 10 + DigitValue(ch);
    }

    /** __pf_fill */
    method PrintFill(spc: nat)
      modifies `out, `charcount
      ensures out == old(out) + Fill(fillchar, spc) && charcount == old(charcount) + spc
    {
      for i := 0 to spc
        invariant out == old(out) + Fill(fillchar, i) && charcount == old(charcount) + i
      {
        assert Fill(fillchar, i) + [fillchar] == Fill(fillchar, i + 1);
        Print([fillchar]);
      }
    }

    /** __pf_printstuff */
    method PrintStuff(prefix: string, prefix2: string, stuff: string)
      modifies `out, `charcount
      ensures out == old(out) + Layout(View(), prefix, prefix2, stuff)
      ensures charcount == old(charcount) + |Layout(View(), prefix, prefix2, stuff)|
    {
      var len := |prefix| + |prefix2| + |stuff|;
      var spc := spacing;
      if spc > len {
        spc := spc - len;
      } else {
        spc := 0;
      }
      hide Fill, Layout;
      ghost var front, middle, back := [], [], [];
      if spc > 0 && !rightspc && fillchar != '0' {
        PrintFill(spc);
        front := Fill(fillchar, spc);
      }
      Print(prefix);
      Print(prefix2);
      if spc > 0 && !rightspc && fillchar == '0' {
        PrintFill(spc);
        middle := Fill(fillchar, spc);
      }
      Print(stuff);
      if spc > 0 && rightspc {
        PrintFill(spc);
        back := Fill(fillchar, spc);
      }
      LayoutParts(old(out), View(), prefix, prefix2, stuff, front, middle, back);
    }

    /** __pf_getnum */
    method GetNum(ch: char, v: int)
      requires IsInteger(ch) && (ch == 'd' || v >= 0) && !sign
      modifies `num, `sign
      ensures num == (if v < 0 then -v else v) && (sign <==> v < 0)
    {
      if ch == 'd' {
        if v < 0 {
          sign := true;
          num := -v;
        } else {
          num := v;
        }
      } else {
        num := v;
      }
    }

    /** __pf_setbase */
    method SetBase(ch: char)
      requires IsInteger(ch) && !baseprefix
      modifies `base, `baseprefix
      ensures base == BaseOf(ch) && (baseprefix <==> altformat || ch == 'p')
    {
      match ch {
        case 'd' => base := 10;
        case 'u' => base := 10;
        case 'x' => base := 16;
        case 'p' => base := 16;
        case _ => base := 8;
      }
      if altformat || ch == 'p' {
        baseprefix := true;
      }
    }

    /** __pf_printnum */
    method PrintNum()
      requires num < LLIMIT && base in {8, 10, 16}
      modifies `out, `charcount
      ensures var prefix := if baseprefix && base == 16 then "0x" else if baseprefix && base == 8 then "0" else "";
              var text := Layout(View(), if sign then "-" else "", prefix, TextOf(num, base));
              out == old(out) + text && charcount == old(charcount) + |text|
    {
      var buf, x := PrintDigits(num, base);
      var bprefix := "";
      if baseprefix && base == 16 {
        bprefix := "0x";
      } else if baseprefix && base == 8 {
        bprefix := "0";
      }
      var sprefix := if sign then "-" else "";
      PrintStuff(sprefix, bprefix, buf[x..NUMBER_BUF_SIZE - 1]);
    }

    /** __pf_send; arg is what va_arg gives if this character fetches an argument. */
    method Send(ch: char, arg: Arg)
      requires ArgOk(View(), ch, arg) && !sign && !baseprefix
      modifies this
      ensures out == old(out) + Sent(old(View()), ch, arg)
      ensures charcount == old(charcount) + |Sent(old(View()), ch, arg)|
      ensures View() == Next(old(View()), ch) && !sign && !baseprefix
    {
      hide Layout, TextOf, Modified, IsModifier, IsInteger;
      if !inPct && ch != '%' {
        Print([ch]);
      } else if !inPct {
        inPct := true;
      } else if IsModifier(ch) {
        Modifier(ch);
      } else if IsInteger(ch) {
        GetNum(ch, arg.v);
        SetBase(ch);
        PrintNum();
        EndField();
      } else if ch == 's' {
        PrintStuff("", "", if arg.Str? then arg.s else "(null)");
        EndField();
      } else {
        PrintStuff("", "", if ch == 'c' then CharText(arg.v) else [ch]);
        EndField();
      }
    }
  }

  // ---- Whole formats ----

  /** Whether a character of the format fetches an argument. */
  predicate Fetches(inPct: bool, ch: char)
  {
    inPct && !IsModifier(ch) && (IsInteger(ch) || ch == 's' || ch == 'c')
  }

  /** The arguments are there for the rest of a format, and of the right kinds. */
  predicate ArgsOk(f: Field, format: string, args: seq<Arg>)
    decreases |format|
  {
    if format == [] then true
    else if Fetches(f.inPct, format[0]) then
      args != [] && ArgOk(f, format[0], args[0]) && ArgsOk(Next(f, format[0]), format[1..], args[1..])
    else ArgsOk(Next(f, format[0]), format[1..], args)
  }

  /** What the rest of a format prints. */
  function Formatted(f: Field, format: string, args: seq<Arg>): (s: string)
    requires ArgsOk(f, format, args)
    decreases |format|
  {
    if format == [] then []
    else if Fetches(f.inPct, format[0]) then
      Sent(f, format[0], args[0]) + Formatted(Next(f, format[0]), format[1..], args[1..])
    else Sent(f, format[0], NullStr) + Formatted(Next(f, format[0]), format[1..], args)
  }

  /** __vprintf */
  method Vprintf(format: string, args: seq<Arg>) returns (text: string, count: nat)
    requires ArgsOk(NO_FIELD, format, args)
    ensures text == Formatted(NO_FIELD, format, args) && count == |text|
  {
    hide Sent, Next, ArgOk, Fetches;
    var pf := new PF();
    var next := 0;
    assert args[0..] == args && format[0..] == format;
    for i := 0 to |format|
      invariant fresh(pf) && !pf.sign && !pf.baseprefix && pf.charcount == |pf.out|
      invariant next <= |args| && ArgsOk(pf.View(), format[i..], args[next..])
      invariant pf.out + Formatted(pf.View(), format[i..], args[next..]) == Formatted(NO_FIELD, format, args)
    {
      assert format[i..][0] == format[i] && format[i..][1..] == format[i + 1..];
      var arg := NullStr;
      if Fetches(pf.inPct, format[i]) {
        assert args[next..][0] == args[next] && args[next..][1..] == args[next + 1..];
        arg := args[next];
        next := next + 1;
      }
      NoArg(pf.View(), format[i]);
      pf.Send(format[i], arg);
    }
    return pf.out, pf.charcount;
  }

  lemma NoArg(f: Field, ch: char)
    ensures !Fetches(f.inPct, ch) ==> ArgOk(f, ch, NullStr)
  {
  }

  lemma FirstChar(f: Field, ch: char, rest: string, args: seq<Arg>)
    requires if Fetches(f.inPct, ch) then args != [] && ArgOk(f, ch, args[0]) && ArgsOk(Next(f, ch), rest, args[1..])
             else ArgsOk(Next(f, ch), rest, args)
    ensures ArgsOk(f, [ch] + rest, args)
    ensures Fetches(f.inPct, ch) ==>
              Formatted(f, [ch] + rest, args) == Sent(f, ch, args[0]) + Formatted(Next(f, ch), rest, args[1..])
    ensures !Fetches(f.inPct, ch) ==>
              ArgOk(f, ch, NullStr)
              && Formatted(f, [ch] + rest, args) == Sent(f, ch, NullStr) + Formatted(Next(f, ch), rest, args)
  {
    NoArg(f, ch);
    hide Sent, Next, ArgOk, Fetches;
    assert ([ch] + rest)[0] == ch && ([ch] + rest)[1..] == rest;
  }

  /** Characters outside every directive are printed as they are. */
  lemma {:induction false} PlainFirst(f: Field, plain: string, rest: string, args: seq<Arg>)
    requires !f.inPct && '%' !in plain && ArgsOk(f, rest, args)
    ensures ArgsOk(f, plain + rest, args) && Formatted(f, plain + rest, args) == plain + Formatted(f, rest, args)
  {
    hide ArgsOk, Formatted;
    if plain == [] {
      assert plain + rest == rest;
    } else {
      var more := plain[1..] + rest;
      assert plain + rest == [plain[0]] + more && plain == [plain[0]] + plain[1..];
      PlainFirst(f, plain[1..], rest, args);
      FirstChar(f, plain[0], more, args);
    }
  }

  /** How many arguments a format fetches, and the field behind it. */
  function Fetched(f: Field, format: string): (n: nat)
    decreases |format|
  {
    if format == [] then 0
    else (if Fetches(f.inPct, format[0]) then 1 else 0) + Fetched(Next(f, format[0]), format[1..])
  }

  function FieldAfter(f: Field, format: string): (r: Field)
    decreases |format|
  {
    if format == [] then f else FieldAfter(Next(f, format[0]), format[1..])
  }

  /** Two formats one after the other print their texts one after the other, and share the
      arguments in order. */
  lemma {:induction false} FormatsCompose(f: Field, format: string, rest: string, args: seq<Arg>)
    requires ArgsOk(f, format + rest, args)
    ensures Fetched(f, format) <= |args|
    ensures ArgsOk(f, format, args) && ArgsOk(FieldAfter(f, format), rest, args[Fetched(f, format)..])
    ensures Formatted(f, format + rest, args)
         == Formatted(f, format, args) + Formatted(FieldAfter(f, format), rest, args[Fetched(f, format)..])
    decreases |format|
  {
    hide Sent, Next, ArgOk, Fetches;
    if format == [] {
      assert format + rest == rest && args[0..] == args;
    } else {
      assert (format + rest)[1..] == format[1..] + rest && (format + rest)[0] == format[0];
      if Fetches(f.inPct, format[0]) {
        FormatsCompose(Next(f, format[0]), format[1..], rest, args[1..]);
        assert args[1..][Fetched(Next(f, format[0]), format[1..])..] == args[Fetched(f, format)..];
      } else {
        FormatsCompose(Next(f, format[0]), format[1..], rest, args);
      }
    }
  }

  // ---- Directives ----

  /** The field after some modifier characters. */
  function FieldOf(flags: string): (f: Field)
    requires forall i :: 0 <= i < |flags| ==> IsModifier(flags[i])
  {
    if flags == [] then NO_FIELD.(inPct := true)
    else Modified(FieldOf(flags[..|flags| - 1]), flags[|flags| - 1])
  }

  lemma {:induction false} FieldInPct(flags: string)
    requires forall i :: 0 <= i < |flags| ==> IsModifier(flags[i])
    ensures FieldOf(flags).inPct
  {
    if flags != [] {
      FieldInPct(flags[..|flags| - 1]);
    }
  }

  predicate IsDigit(ch: char)
  {
    '0' <= ch <= '9'
  }

  /** The digit characters among the modifiers, in order. */
  function DigitsOf(flags: string): (d: string)
  {
    if flags == [] then []
    else if IsDigit(flags[|flags| - 1]) then DigitsOf(flags[..|flags| - 1]) + [flags[|flags| - 1]]
    else DigitsOf(flags[..|flags| - 1])
  }

  /** A leading zero asks for zeros. */
  function FillOf(d: string): (c: char)
  {
    if d != [] && d[0] == '0' then '0' else ' '
  }

  /** What the modifiers of a directive mean, wherever they stand: '-' aligns left, '#' asks for
      the prefix, the digits are the field width, and a leading zero fills with zeros. */
  lemma {:induction false} FieldMeans(flags: string)
    requires forall i :: 0 <= i < |flags| ==> IsModifier(flags[i])
    ensures FieldOf(flags).rightspc <==> '-' in flags
    ensures FieldOf(flags).altformat <==> '#' in flags
    ensures FieldOf(flags).spacing == Value(DigitsOf(flags), 10)
    ensures FieldOf(flags).fillchar == FillOf(DigitsOf(flags))
    ensures Decimal(DigitsOf(flags))
  {
    hide Value, FillOf, Modified, IsModifier;
    if flags == [] {
      ZeroValue([]);
    } else {
      var front, c := flags[..|flags| - 1], flags[|flags| - 1];
      assert flags == front + [c];
      FieldMeans(front);
      FlagStep(FieldOf(front), c);
      if IsDigit(c) {
        DigitStep(FieldOf(front), c, DigitsOf(front));
      }
    }
  }

  lemma FlagStep(f: Field, c: char)
    requires IsModifier(c)
    ensures Modified(f, c).rightspc <==> f.rightspc || c == '-'
    ensures Modified(f, c).altformat <==> f.altformat || c == '#'
    ensures !IsDigit(c) ==> Modified(f, c).spacing == f.spacing && Modified(f, c).fillchar == f.fillchar
  {
  }

  lemma DigitStep(f: Field, c: char, d: string)
    requires IsModifier(c) && IsDigit(c) && Decimal(d)
    requires f.spacing == Value(d, 10) && f.fillchar == FillOf(d)
    ensures Modified(f, c).spacing == Value(d + [c], 10)
    ensures Modified(f, c).fillchar == FillOf(d + [c])
  {
    hide Value;
    ZeroValue(d);
    ValueAppend(d, c, 10);
  }

  /** Only digits that begin with a zero have the value zero. */
  lemma {:induction false} ZeroValue(d: string)
    requires Decimal(d)
    ensures d == [] ==> Value(d, 10) == 0 && FillOf(d) == ' '
    ensures Value(d, 10) == 0 && d != [] ==> d[0] == '0'
  {
    if |d| > 1 {
      ZeroValue(d[..|d| - 1]);
    }
  }

  /** The modifiers of a directive print nothing and make up its field. */
  lemma {:induction false} FlagsFirst(flags: string, i: nat, rest: string, args: seq<Arg>)
    requires (forall j :: 0 <= j < |flags| ==> IsModifier(flags[j])) && i <= |flags|
    requires ArgsOk(FieldOf(flags), rest, args)
    ensures ArgsOk(FieldOf(flags[..i]), flags[i..] + rest, args)
    ensures Formatted(FieldOf(flags[..i]), flags[i..] + rest, args) == Formatted(FieldOf(flags), rest, args)
    decreases |flags| - i
  {
    hide FieldOf, ArgsOk, Formatted, IsModifier;
    if i == |flags| {
      assert flags[..i] == flags && flags[i..] + rest == rest;
    } else {
      var more := flags[i + 1..] + rest;
      FlagsFirst(flags, i + 1, rest, args);
      assert flags[i..] + rest == [flags[i]] + more;
      assert flags[..i + 1] == flags[..i] + [flags[i]];
      FlagFirst(flags[..i], flags[i], more, args);
    }
  }

  lemma FlagFirst(flags: string, ch: char, rest: string, args: seq<Arg>)
    requires (forall j :: 0 <= j < |flags| ==> IsModifier(flags[j])) && IsModifier(ch)
    requires ArgsOk(FieldOf(flags + [ch]), rest, args)
    ensures ArgsOk(FieldOf(flags), [ch] + rest, args)
    ensures Formatted(FieldOf(flags), [ch] + rest, args) == Formatted(FieldOf(flags + [ch]), rest, args)
  {
    FieldInPct(flags);
    assert (flags + [ch])[..|flags|] == flags;
    assert FieldOf(flags + [ch]) == Modified(FieldOf(flags), ch);
    hide FieldOf, Modified, IsModifier, ArgsOk, Formatted;
    FirstChar(FieldOf(flags), ch, rest, args);
  }

  /** A directive in the middle of plain text. */
  lemma DirectiveText(before: string, flags: string, ch: char, after: string, arg: Arg)
    requires '%' !in before && '%' !in after && !IsModifier(ch)
    requires (forall i :: 0 <= i < |flags| ==> IsModifier(flags[i])) && ArgOk(FieldOf(flags), ch, arg)
    ensures var format, args := before + ("%" + (flags + ([ch] + after))), if Fetches(true, ch) then [arg] else [];
            && ArgsOk(NO_FIELD, format, args)
            && Formatted(NO_FIELD, format, args) == before + Sent(FieldOf(flags), ch, arg) + after
  {
    hide Modified, IsModifier, Sent, ArgOk, ArgsOk, Formatted, Fetches;
    var args := if Fetches(true, ch) then [arg] else [];
    FieldInPct(flags);
    LastText(FieldOf(flags), ch, after, arg);
    FlagsFirst(flags, 0, [ch] + after, args);
    assert flags[..0] == [] && flags[0..] == flags;
    PercentFirst(flags + ([ch] + after), args);
    PlainFirst(NO_FIELD, before, "%" + (flags + ([ch] + after)), args);
  }

  lemma LastText(f: Field, ch: char, after: string, arg: Arg)
    requires f.inPct && !IsModifier(ch) && ArgOk(f, ch, arg) && '%' !in after
    ensures var args := if Fetches(true, ch) then [arg] else [];
            ArgsOk(f, [ch] + after, args) && Formatted(f, [ch] + after, args) == Sent(f, ch, arg) + after
  {
    hide Layout, IntegerText, Formatted, IsModifier;
    var args := if Fetches(true, ch) then [arg] else [];
    EmptyText(NO_FIELD);
    PlainFirst(NO_FIELD, after, [], []);
    assert after + [] == after;
    assert Next(f, ch) == NO_FIELD;
    assert Fetches(true, ch) ==> args[1..] == [];
    FirstChar(f, ch, after, args);
  }

  lemma EmptyText(f: Field)
    ensures ArgsOk(f, [], []) && Formatted(f, [], []) == []
  {
  }

  lemma PercentFirst(rest: string, args: seq<Arg>)
    requires ArgsOk(NO_FIELD.(inPct := true), rest, args)
    ensures ArgsOk(NO_FIELD, "%" + rest, args)
    ensures Formatted(NO_FIELD, "%" + rest, args) == Formatted(NO_FIELD.(inPct := true), rest, args)
  {
    hide ArgsOk, Formatted;
    FirstChar(NO_FIELD, '%', rest, args);
  }

  /** The text that printf gives for a %d directive with these modifiers. */
  method FormatInt(flags: string, n: int) returns (text: string, count: nat)
    requires forall i :: 0 <= i < |flags| ==> IsModifier(flags[i])
    requires -(Atoi.WORD as int / 2) <= n < Atoi.WORD / 2
    ensures text == IntegerText(FieldOf(flags), 'd', n) && count == |text|
  {
    FieldInPct(flags);
    hide IntegerText, Modified;
    DirectiveText("", flags, 'd', "", Int(n));
    text, count := Vprintf("" + ("%" + (flags + (['d'] + ""))), [Int(n)]);
  }

  // ---- Reading it back ----

  lemma MeaningOf(blanks: nat, neg: bool, digits: string, tail: string)
    requires Decimal(digits) && digits != [] && (tail == [] || !('0' <= tail[0] <= '9'))
    ensures Atoi.Meaning(Fill(' ', blanks) + (if neg then "-" else "") + digits + tail) == Atoi.SignedValue(neg, digits)
  {
    hide Atoi.Meaning, Atoi.SignedValue;
    Atoi.Reads(Fill(' ', blanks), if neg then "-" else "", digits, tail);
  }

  /** The magnitude of an int gives the int back. */
  lemma SignedMagnitude(n: int, digits: string)
    requires -(Atoi.WORD as int / 2) <= n < Atoi.WORD / 2 && Value(digits, 10) == (if n < 0 then -n else n)
    ensures Atoi.SignedValue(n < 0, digits) == n
  {
  }

  /** A number times an odd number is a multiple of a power of two only if it is one itself. */
  lemma {:induction false} OddCancel(k: nat, m: nat, c: nat)
    requires c % 2 == 1 && 0 <= m * c && (m * c) % Words.Pow2(k) == 0
    ensures m % Words.Pow2(k) == 0
  {
    if k > 0 {
      var p := Words.Pow2(k - 1);
      EvenFactor(m, c, p);
      var h := m / 2;
      assert m == 2 * h;
      HalfProduct(h, c, p);
      OddCancel(k - 1, h, c);
      DoubleMultiple(h, p);
    }
  }

  lemma EvenFactor(m: nat, c: nat, p: nat)
    requires c % 2 == 1 && p > 0 && 0 <= m * c && (m * c) % (2 * p) == 0
    ensures m % 2 == 0
  {
    Words.DivMod(m * c, 2 * p);
    var q := (m * c) / (2 * p);
    var a, b, r := m / 2, c / 2, m % 2;
    Expand(a, b, r, m, c);
    Twice(q, p, m * c);
  }

  lemma Expand(a: nat, b: nat, r: nat, m: nat, c: nat)
    requires m == 2 * a + r && c == 2 * b + 1
    ensures m * c == 2 * (2 * (a * b) + a + r * b) + r
  {
  }

  lemma Twice(q: int, p: nat, x: int)
    requires x == q * (2 * p) + 0
    ensures x % 2 == 0
  {
    assert q * (2 * p) == 2 * (q * p);
  }

  lemma HalfProduct(h: nat, c: nat, p: nat)
    requires p > 0 && 0 <= 2 * h * c && (2 * h * c) % (2 * p) == 0
    ensures 0 <= h * c && (h * c) % p == 0
  {
    Words.MulPositive(h, c);
    Words.DivMod(2 * h * c, 2 * p);
    var q := (2 * h * c) / (2 * p);
    assert 2 * (h * c) == 2 * (q * p);
    Words.DivUnique(h * c, p, q, 0);
  }

  lemma DoubleMultiple(h: nat, p: nat)
    requires p > 0 && h % p == 0
    ensures (2 * h) % (2 * p) == 0
  {
    Words.DivMod(h, p);
    var q := h / p;
    Words.DivUnique(2 * h, 2 * p, q, 0);
  }

  /** Zeros behind the digits change the int unless it is zero: ten to a positive power less one
      is odd. */
  lemma ZerosBehind(n: int, digits: string, k: nat)
    requires -(Atoi.WORD as int / 2) <= n < Atoi.WORD / 2 && Value(digits, 10) == (if n < 0 then -n else n) && k > 0
    ensures Atoi.SignedValue(n < 0, digits + Zeros(k)) == n <==> n == 0
  {
    hide Value, Words.Pow;
    var m: nat, p := if n < 0 then -n else n, Words.Pow(10, k);
    TrailingZeros(digits, k, 10);
    var v := Value(digits + Zeros(k), 10);
    assert v == m * p;
    if Atoi.SignedValue(n < 0, digits + Zeros(k)) == n {
      SameResidue(n, v, m);
      EvenPower(k);
      Subtract(m, p, v);
      Powers();
      OddCancel(32, m, p - 1);
      SmallMultiple(m);
    }
  }

  lemma EvenPower(k: nat)
    requires k > 0
    ensures Words.Pow(10, k) % 2 == 0 && Words.Pow(10, k) >= 1 && (Words.Pow(10, k) - 1) % 2 == 1
  {
    hide Words.Pow;
    PowerOfTen(k);
    EvenMultiple(Words.Pow(10, k), 5 * Words.Pow(10, k - 1));
  }

  lemma PowerOfTen(k: nat)
    requires k > 0
    ensures Words.Pow(10, k) == 10 * Words.Pow(10, k - 1)
  {
  }

  lemma EvenMultiple(x: nat, h: nat)
    requires x == 2 * h && h >= 1
    ensures x % 2 == 0 && (x - 1) % 2 == 1
  {
  }

  lemma Subtract(m: nat, p: nat, v: nat)
    requires v == m * p && p >= 1
    ensures v - m == m * (p - 1) && 0 <= m * (p - 1)
  {
    Words.MulPositive(m, p - 1);
  }

  lemma SmallMultiple(m: nat)
    requires m % Atoi.WORD == 0 && m <= Atoi.WORD / 2
    ensures m == 0
  {
  }

  lemma Powers()
    ensures Words.Pow2(32) == Atoi.WORD
  {
    Words.Pow2Add(16, 16);
    Words.Pow2Add(8, 8);
    assert Words.Pow2(8) == 256;
  }

  lemma SameResidue(n: int, v: nat, m: nat)
    requires -(Atoi.WORD as int / 2) <= n < Atoi.WORD / 2 && m == (if n < 0 then -n else n)
    requires var r := v % Atoi.WORD; Atoi.ToInt(if n < 0 then (Atoi.WORD - r) % Atoi.WORD else r) == n
    ensures (v - m) % Atoi.WORD == 0
  {
  }

  /** '-' and '0' together put zeros behind the digits of n. */
  predicate ZeroFilledRight(f: Field, n: int)
  {
    f.rightspc && f.fillchar == '0' && f.spacing > |TextOf(if n < 0 then -n else n, 10)| + (if n < 0 then 1 else 0)
  }

  /** For every int and every %d directive, atoi of the printed text gives the int back, except
      exactly when zeros are put behind a nonzero number. */
  lemma PrintThenRead(f: Field, n: int)
    requires -(Atoi.WORD as int / 2) <= n < Atoi.WORD / 2 && (f.fillchar == ' ' || f.fillchar == '0')
    ensures Atoi.Meaning(IntegerText(f, 'd', n)) == n <==> n == 0 || !ZeroFilledRight(f, n)
  {
    hide Value, TextOf, Atoi.Meaning, Atoi.SignedValue, Decimal;
    var m: nat, neg := if n < 0 then -n else n, n < 0;
    var digits, sign := TextOf(m, 10), if neg then "-" else "";
    ValueOfText(m, 10);
    TextDecimal(m);
    var k := Padding(f, |sign| + |digits|);
    if f.rightspc && f.fillchar == '0' {
      ReadRightZeros(f, n, sign, digits, k);
    } else if f.rightspc {
      ReadRightBlanks(f, n, sign, digits, k);
    } else if f.fillchar == '0' {
      ReadLeftZeros(f, n, sign, digits, k);
    } else {
      ReadLeftBlanks(f, n, sign, digits, k);
    }
  }

  /** What the four layouts have in common. */
  predicate IsPrinted(f: Field, n: int, sign: string, digits: string, k: nat)
  {
    && -(Atoi.WORD as int / 2) <= n < Atoi.WORD / 2 && Value(digits, 10) == (if n < 0 then -n else n)
    && Decimal(digits) && digits != [] && sign == (if n < 0 then "-" else "") && k == Padding(f, |sign| + |digits|)
  }

  lemma ReadRightZeros(f: Field, n: int, sign: string, digits: string, k: nat)
    requires IsPrinted(f, n, sign, digits, k) && f.rightspc && f.fillchar == '0'
    ensures Atoi.Meaning(Layout(f, sign, "", digits)) == n <==> n == 0 || k == 0
  {
    hide Value, Atoi.Meaning, Atoi.SignedValue;
    var text := Layout(f, sign, "", digits);
    assert text == Fill(' ', 0) + sign + (digits + Zeros(k)) + [];
    MeaningOf(0, n < 0, digits + Zeros(k), []);
    if k > 0 {
      ZerosBehind(n, digits, k);
    } else {
      assert digits + Zeros(0) == digits;
      SignedMagnitude(n, digits);
    }
  }

  lemma ReadRightBlanks(f: Field, n: int, sign: string, digits: string, k: nat)
    requires IsPrinted(f, n, sign, digits, k) && f.rightspc && f.fillchar == ' '
    ensures Atoi.Meaning(Layout(f, sign, "", digits)) == n
  {
    hide Value, Atoi.Meaning, Atoi.SignedValue;
    assert Layout(f, sign, "", digits) == Fill(' ', 0) + sign + digits + Fill(' ', k);
    MeaningOf(0, n < 0, digits, Fill(' ', k));
    SignedMagnitude(n, digits);
  }

  lemma ReadLeftZeros(f: Field, n: int, sign: string, digits: string, k: nat)
    requires IsPrinted(f, n, sign, digits, k) && !f.rightspc && f.fillchar == '0'
    ensures Atoi.Meaning(Layout(f, sign, "", digits)) == n
  {
    hide Value, Atoi.Meaning, Atoi.SignedValue;
    assert Layout(f, sign, "", digits) == Fill(' ', 0) + sign + (Zeros(k) + digits) + [];
    LeadingZeros(k, digits, 10);
    MeaningOf(0, n < 0, Zeros(k) + digits, []);
    SignedMagnitude(n, Zeros(k) + digits);
  }

  lemma ReadLeftBlanks(f: Field, n: int, sign: string, digits: string, k: nat)
    requires IsPrinted(f, n, sign, digits, k) && !f.rightspc && f.fillchar == ' '
    ensures Atoi.Meaning(Layout(f, sign, "", digits)) == n
  {
    hide Value, Atoi.Meaning, Atoi.SignedValue;
    assert Layout(f, sign, "", digits) == Fill(' ', k) + sign + digits + [];
    MeaningOf(k, n < 0, digits, []);
    SignedMagnitude(n, digits);
  }

  /** printf of an int followed by atoi of what it printed. */
  method PrintAndRead(flags: string, n: int) returns (r: int)
    requires forall i :: 0 <= i < |flags| ==> IsModifier(flags[i])
    requires -(Atoi.WORD as int / 2) <= n < Atoi.WORD / 2
    ensures var width := |TextOf(if n < 0 then -n else n, 10)| + (if n < 0 then 1 else 0);
            var d := DigitsOf(flags);
            r == n <==> n == 0 || '-' !in flags || FillOf(d) != '0' || Value(d, 10) <= width
  {
    hide Value, TextOf, DigitsOf, FieldOf;
    var text, _ := FormatInt(flags, n);
    FieldMeans(flags);
    PrintThenRead(FieldOf(flags), n);
    r := Atoi.Atoi(text);
  }
}
