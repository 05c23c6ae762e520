/** What one blank-free piece of rule text means: parse_element, parse_repetition's prefix,
    decode_terminal and decode_quoted (grammar/packet-generator.c), read as a parser from text to
    elements. RFC 5234 sections 2.3, 3.4, 3.6 and 3.7 are the notation. */
module Abnf {
  import opened Octets
  import opened CText

  const REPETITION_INFTY: nat := 16
  const INT_MAX: int := 0x7fff_ffff
  const LONG_MAX: int := 0x7fff_ffff_ffff_ffff

  datatype Element =
    | Rule(name: string)
    | Literal(bytes: seq<byte>)
    | Range(lo: nat, hi: nat)
    | Repeat(min: nat, max: nat, item: Element)
    | Skip                         // bracketed text, never decoded
    | Malformed                    // a null token, a lone or unlettered range, a bound past INT_MAX

  /* --- Numerals --- */

  function DigitValue(c: char): int
  {
    if '0' <= c <= '9' then c as int - '0' as int
    else if 'a' <= c <= 'f' then c as int - 'a' as int + 10
    else if 'A' <= c <= 'F' then c as int - 'A' as int + 10
    else -1
  }

  predicate IsNumeral(s: string, base: nat)
  {
    forall c | c in s :: 0 <= DigitValue(c) < base
  }

  /** Positional value; the digit loops and strtol build it left to right. */
  function Numeral(s: string, base: nat): nat
    requires IsNumeral(s, base)
  {
    if s == "" then 0 else Numeral(s[..|s| - 1], base) * base + DigitValue(s[|s| - 1])
  }

  function DigitChar(d: nat): char
    requires d < 16
    ensures DigitValue(DigitChar(d)) == d
  {
    if d < 10 then ('0' as int + d) as char else ('A' as int + d - 10) as char
  }

  lemma QuotientSmaller(v: nat, base: nat)
    requires 2 <= base <= v
    ensures v / base < v
  {
    var q := v / base;
    if q >= v { MulMonotone(2, base, q); }
  }

  function Show(v: nat, base: nat): (s: string)
    requires 2 <= base <= 16
    ensures s != "" && IsNumeral(s, base)
  {
    if v < base then [DigitChar(v)]
    else
      assert v / base < v by { QuotientSmaller(v, base); }
      Show(v / base, base) + [DigitChar(v % base)]
  }

  lemma {:induction false} NumeralOfShow(v: nat, base: nat)
    requires 2 <= base <= 16
    ensures Numeral(Show(v, base), base) == v
  {
    if v < base {
      NumeralSnoc("", v, base);
    } else {
      NumeralOfShow(v / base, base);
      Euclid(v, base);
      NumeralSnoc(Show(v / base, base), v % base, base);
    }
  }

  lemma Euclid(v: nat, base: nat)
    requires base > 0
    ensures v / base * base + v % base == v
  {
  }

  lemma NumeralSnoc(s: string, d: nat, base: nat)
    requires d < base <= 16 && IsNumeral(s, base)
    ensures Numeral(s + [DigitChar(d)], base) == Numeral(s, base) * base + d
  {
    var t := s + [DigitChar(d)];
    assert t[..|t| - 1] == s;
  }

  /* --- Terminals --- */

  /** get_terminal_base: 0 stands for the invalid base. */
  function BaseOf(terminal: string): nat
  {
    if |terminal| < 2 then 0
    else match terminal[1]
      case 'd' => 10
      case 'x' => 16
      case 'b' => 2
      case _ => 0
  }

  function BaseLetter(base: nat): char
    requires base in {2, 10, 16}
  {
    if base == 2 then 'b' else if base == 10 then 'd' else 'x'
  }

  predicate IsSpace(c: char) { c == ' ' || 9 <= c as int <= 13 }

  function SkipSpace(s: string): string
  {
    if s != "" && IsSpace(s[0]) then SkipSpace(s[1..]) else s
  }

  /** The longest prefix made of digits of the base. */
  function DigitPrefix(s: string, base: nat): (d: string)
    ensures IsNumeral(d, base) && d <= s
  {
    if s == "" || !(0 <= DigitValue(s[0]) < base) then ""
    else [s[0]] + DigitPrefix(s[1..], base)
  }

  /** The radix strtol settles on, and the digits: base 0 goes by the prefix, base 16 skips it. */
  function RadixAndDigits(s: string, base: nat): (nat, string)
  {
    if |s| >= 2 && s[0] == '0' && s[1] in ['x', 'X'] && base in {0, 16} then (16, s[2..])
    else if base != 0 then (base, s)
    else if s != "" && s[0] == '0' then (8, s)
    else (10, s)
  }

  /** strtol: blanks, a sign, a prefix, then as many digits as there are; 0 without any; saturating. */
  function StrToL(word: string, base: nat): int
  {
    var s := SkipSpace(word);
    var negative := s != "" && s[0] == '-';
    var unsigned := if s != "" && s[0] in ['+', '-'] then s[1..] else s;
    var (radix, digits) := RadixAndDigits(unsigned, base);
    var v: int := Numeral(DigitPrefix(digits, radix), radix);
    if negative then (if v > LONG_MAX + 1 then -LONG_MAX - 1 else -v)
    else (if v > LONG_MAX then LONG_MAX else v)
  }

  /** strtol followed by the cast to a char. */
  function Octet(word: string, base: nat): byte { StrToL(word, base) % 256 }

  lemma {:induction false} DigitPrefixAll(s: string, base: nat)
    requires IsNumeral(s, base)
    ensures DigitPrefix(s, base) == s
  {
    if s != "" { DigitPrefixAll(s[1..], base); }
  }

  /** On a numeral of the base strtol is its positional value, as far as a long holds it. */
  lemma StrToLNumeral(word: string, base: nat)
    requires base in {2, 10, 16} && word != "" && IsNumeral(word, base)
    ensures StrToL(word, base) == if Numeral(word, base) > LONG_MAX then LONG_MAX else Numeral(word, base)
  {
    assert 0 <= DigitValue(word[0]) < base;
    assert DigitValue('x') == DigitValue('X') == DigitValue('-') == DigitValue('+') == -1;
    assert !IsSpace(word[0]);
    if |word| > 1 { assert 0 <= DigitValue(word[1]) < base; }
    DigitPrefixAll(word, base);
  }

  /** What a long holds of a number. */
  function Saturated(v: int): int
  {
    if v > LONG_MAX then LONG_MAX else if v < -LONG_MAX - 1 then -LONG_MAX - 1 else v
  }

  lemma {:induction false} SkipsSpace(blanks: string, s: string)
    requires (forall c | c in blanks :: IsSpace(c)) && (s == "" || !IsSpace(s[0]))
    ensures SkipSpace(blanks + s) == s
  {
    if blanks == "" {
      assert blanks + s == s;
    } else {
      assert (blanks + s)[1..] == blanks[1..] + s && blanks[0] in blanks;
      SkipsSpace(blanks[1..], s);
    }
  }

  lemma {:induction false} DigitPrefixStops(digits: string, rest: string, base: nat)
    requires IsNumeral(digits, base) && (rest == "" || !(0 <= DigitValue(rest[0]) < base))
    ensures DigitPrefix(digits + rest, base) == digits
  {
    if digits == "" {
      assert digits + rest == rest;
    } else {
      assert (digits + rest)[1..] == digits[1..] + rest && digits[0] in digits;
      DigitPrefixStops(digits[1..], rest, base);
    }
  }

  /** Base 16 skips nothing, unless an x follows a first 0. */
  lemma PlainRadix(digits: string, rest: string, base: nat)
    requires base in {2, 10, 16} && IsNumeral(digits, base) && (rest == "" || !(0 <= DigitValue(rest[0]) < base))
    requires !(digits == "0" && rest != "" && rest[0] in ['x', 'X'])
    ensures RadixAndDigits(digits + rest, base) == (base, digits + rest)
  {
    var s := digits + rest;
    assert DigitValue('x') == DigitValue('X') == -1;
    if |digits| > 1 { assert digits[1] in digits && s[1] == digits[1]; }
  }

  lemma SignRead(sign: string, digits: string, rest: string, base: nat)
    requires base in {2, 10, 16} && sign in {"", "+", "-"} && IsNumeral(digits, base)
    requires digits == "" && sign == "" ==> rest == "" || (!IsSpace(rest[0]) && rest[0] !in ['+', '-'])
    ensures var s := sign + digits + rest;
            && (s == "" || !IsSpace(s[0]))
            && (s != "" && s[0] == '-' <==> sign == "-")
            && (if s != "" && s[0] in ['+', '-'] then s[1..] else s) == digits + rest
  {
    var s := sign + digits + rest;
    assert DigitValue('-') == DigitValue('+') == DigitValue(' ') == -1;
    if digits != "" { assert digits[0] in digits && 0 <= DigitValue(digits[0]); }
    if sign == "" { assert s == digits + rest; } else { assert s[1..] == digits + rest; }
  }

  /** Whatever stands around the digits: blanks and a sign are read, the rest is not; and without a
      digit the number is 0. Only "0x" is not this simple. */
  lemma StrToLReads(blanks: string, sign: string, digits: string, rest: string, base: nat)
    requires base in {2, 10, 16} && sign in {"", "+", "-"}
    requires forall c | c in blanks :: c == ' ' || 9 <= c as int <= 13
    requires IsNumeral(digits, base) && (rest == "" || !(0 <= DigitValue(rest[0]) < base))
    requires !(digits == "0" && rest != "" && rest[0] in ['x', 'X'])
    requires digits == "" && sign == "" ==> rest == "" || (!IsSpace(rest[0]) && rest[0] !in ['+', '-'])
    ensures var v: int := Numeral(digits, base);
            StrToL(blanks + (sign + digits + rest), base) == Saturated(if sign == "-" then -v else v)
  {
    assert forall c | c in blanks :: IsSpace(c);
    hide Numeral, IsNumeral, RadixAndDigits, DigitPrefix, SkipSpace, DigitValue, IsSpace;
    var s := sign + digits + rest;
    SignRead(sign, digits, rest, base);
    SkipsSpace(blanks, s);
    PlainRadix(digits, rest, base);
    DigitPrefixStops(digits, rest, base);
  }

  lemma StrToLUnsigned(s: string, base: nat, radix: nat, digits: string)
    requires s != "" && 0 <= DigitValue(s[0]) && RadixAndDigits(s, base) == (radix, digits)
    requires IsNumeral(digits, radix)
    ensures StrToL(s, base) == Saturated(Numeral(digits, radix))
  {
    hide RadixAndDigits, DigitPrefix, Numeral, IsNumeral;
    assert DigitValue('-') == DigitValue('+') == DigitValue(' ') == -1;
    assert !IsSpace(s[0]);
    DigitPrefixAll(digits, radix);
  }

  /** And "0x": skipped in base 16; without a base it says that 16 is meant. */
  lemma StrToLHex(digits: string, base: nat)
    requires base in {0, 16} && IsNumeral(digits, 16)
    ensures StrToL("0x" + digits, base) == Saturated(Numeral(digits, 16))
  {
    var s := "0x" + digits;
    assert s[0] == '0' && s[1] == 'x' && s[2..] == digits;
    StrToLUnsigned(s, base, 16, digits);
  }

  /** A first 0 alone means 8, and neither 10. */
  lemma StrToLBaseless(s: string)
    requires s != "" && IsNumeral(s, if s[0] == '0' then 8 else 10)
    ensures StrToL(s, 0) == Saturated(Numeral(s, if s[0] == '0' then 8 else 10))
  {
    var radix := if s[0] == '0' then 8 else 10;
    assert s[0] in s && DigitValue('x') == DigitValue('X') == -1;
    if |s| > 1 { assert s[1] in s; }
    StrToLUnsigned(s, 0, radix, s);
  }

  function OctetsOf(words: seq<string>, base: nat): (r: seq<byte>)
    ensures |r| == |words|
    ensures forall i | 0 <= i < |words| :: r[i] == Octet(words[i], base)
  {
    seq(|words|, i requires 0 <= i < |words| => Octet(words[i], base))
  }

  /** The dotted octets after the base letter. The dots of the whole text are counted, and every
      strtok call that finds no token leaves a null pointer for strtol. */
  function SymbolOctets(symbol: string): (r: Option<seq<byte>>)
    requires |symbol| >= 2
    ensures r.Some? ==> |r.value| == Count(symbol, '.') + 1
  {
    var words := Tokens(symbol[2..], '.');
    if |words| != Count(symbol, '.') + 1 then None else Some(OctetsOf(words, BaseOf(symbol)))
  }

  /** How one octet is usually written: two digits in base 16, no padding otherwise. */
  function OctetText(v: byte, base: nat): (w: string)
    requires base in {2, 10, 16}
    ensures w != "" && IsNumeral(w, base)
  {
    if base == 16 then [DigitChar(v / 16), DigitChar(v % 16)] else Show(v, base)
  }

  lemma HexOctet(v: byte)
    ensures Numeral([DigitChar(v / 16), DigitChar(v % 16)], 16) == v
  {
    hide DigitChar;
    var high, low := DigitChar(v / 16), DigitChar(v % 16);
    NumeralSnoc("", v / 16, 16);
    NumeralSnoc([high], v % 16, 16);
    assert "" + [high] == [high] && [high] + [low] == [high, low];
  }

  lemma OctetOfText(v: byte, base: nat)
    requires base in {2, 10, 16}
    ensures Octet(OctetText(v, base), base) == v
  {
    hide DigitChar, Show, Numeral, IsNumeral, StrToL;
    if base == 16 { HexOctet(v); } else { NumeralOfShow(v, base); }
    StrToLNumeral(OctetText(v, base), base);
  }

  function ShowAll(octets: seq<byte>, base: nat): (words: seq<string>)
    requires base in {2, 10, 16}
    ensures forall w | w in words :: w != "" && IsNumeral(w, base)
    ensures |words| == |octets|
  {
    if octets == [] then [] else [OctetText(octets[0], base)] + ShowAll(octets[1..], base)
  }

  function Dotted(base: nat, octets: seq<byte>): string
    requires base in {2, 10, 16}
  {
    Join(ShowAll(octets, base), '.')
  }

  lemma {:induction false} OctetsOfShown(base: nat, octets: seq<byte>)
    requires base in {2, 10, 16}
    ensures OctetsOf(ShowAll(octets, base), base) == octets
  {
    if octets != [] {
      OctetOfText(octets[0], base);
      OctetsOfShown(base, octets[1..]);
      var words := ShowAll(octets, base);
      forall i | 0 < i < |octets| ensures Octet(words[i], base) == octets[i] {
        assert words[i] == ShowAll(octets[1..], base)[i - 1] && OctetsOf(words[1..], base)[i - 1] == octets[i];
      }
    }
  }

  /** The text of a terminal symbol. */
  function SymbolText(base: nat, dotted: string): (s: string)
    requires base in {2, 10, 16}
    ensures |s| == |dotted| + 2 && s[2..] == dotted && BaseOf(s) == base
    ensures Count(s, '.') == Count(dotted, '.')
  {
    var s := ['%', BaseLetter(base)] + dotted;
    assert s[1..] == [BaseLetter(base)] + dotted && s[1..][1..] == dotted;
    s
  }

  /** decode_terminal_symbol inverts printing any non-empty octet string in dotted base 2, 10 or 16. */
  lemma SymbolRoundTrip(base: nat, octets: seq<byte>)
    requires base in {2, 10, 16} && octets != []
    ensures SymbolOctets(SymbolText(base, Dotted(base, octets))) == Some(octets)
  {
    var words := ShowAll(octets, base);
    forall w | w in words ensures Word(w, '.') {
      assert DigitValue('.') == -1;
    }
    TokensOfJoin(words, '.');
    OctetsOfShown(base, octets);
  }

  /** decode_terminal on the whole text of a terminal. Without a base letter a range would copy its
      upper bound into one octet; without a digit position a symbol would be read past its end. */
  function ParseTerminal(s: string): Element
    requires s != "" && s[0] == '%'
  {
    if |s| < 2 then Malformed
    else if Count(s, '-') == 1 then ParseRange(s)
    else match SymbolOctets(s)
      case None => Malformed
      case Some(octets) => Literal(octets)
  }

  /** A terminal is a symbol, a range or broken. A symbol is broken when a dot has no token of its own,
      and one without a second character; what has just one dash is never a symbol. */
  lemma TerminalKinds(s: string)
    requires s != "" && s[0] == '%'
    ensures |s| < 2 ==> ParseTerminal(s) == Malformed
    ensures |s| >= 2 && Count(s, '-') == 1 ==> ParseTerminal(s).Range? || ParseTerminal(s) == Malformed
    ensures |s| >= 2 && Count(s, '-') != 1 ==>
              && (ParseTerminal(s) == Malformed <==> |Tokens(s[2..], '.')| <= Count(s, '.'))
              && (ParseTerminal(s) != Malformed ==>
                    ParseTerminal(s) == Literal(OctetsOf(Tokens(s[2..], '.'), BaseOf(s))))
  {
    if |s| >= 2 {
      TokensCount(s[2..], '.');
      CountSplit(s, 2, '.');
    }
  }

  /** A range is broken by a dash too early or at the end, a missing base letter, a half with a dot too
      many, or a bound no int holds; otherwise both its halves are read like symbols. */
  lemma RangeKinds(s: string)
    requires |s| >= 2 && s[0] == '%' && Count(s, '-') == 1
    ensures var cut := Span(s, '-');
            && cut < |s|
            && (cut < 2 || cut + 1 == |s| || BaseOf(s) == 0 ==> ParseTerminal(s) == Malformed)
            && (2 <= cut && cut + 1 < |s| && BaseOf(s) != 0 ==>
                  var lo, hi := SymbolOctets(s[..cut]), SymbolOctets(s[..2] + s[cut + 1..]);
                  && (ParseTerminal(s) != Malformed <==>
                        lo.Some? && hi.Some? && Value(lo.value) <= INT_MAX && Value(hi.value) <= INT_MAX)
                  && (ParseTerminal(s) != Malformed ==> ParseTerminal(s) == Range(Value(lo.value), Value(hi.value))))
  {
    hide SymbolOctets, Value;
    var cut := Span(s, '-');
    if cut == |s| {
      assert s[..cut] == s;
      CountNone(s, '-');
    }
  }

  /** decode_terminal_range up to the roll: the text before the dash, and the text after it behind
      the same percent sign and base letter. */
  function ParseRange(s: string): Element
    requires |s| >= 2
  {
    var cut := Span(s, '-');
    if cut < 2 || cut + 1 >= |s| || BaseOf(s) == 0 then Malformed
    else match (SymbolOctets(s[..cut]), SymbolOctets(s[..2] + s[cut + 1..]))
      case (Some(lo), Some(hi)) =>
        if Value(lo) <= INT_MAX && Value(hi) <= INT_MAX then Range(Value(lo), Value(hi)) else Malformed
      case _ => Malformed
  }

  /** rand() % (hi - lo) + lo with C's remainder, for hi != lo. */
  function Draw(lo: nat, hi: nat, roll: nat): nat
    requires lo != hi
  {
    roll % (if lo < hi then hi - lo else lo - hi) + lo
  }

  /** The numbers a range can draw: [lo, hi) in the intended order of the bounds. */
  predicate RangeAllows(lo: nat, hi: nat, v: nat)
  {
    if lo < hi then lo <= v < hi else lo <= v < 2 * lo - hi
  }

  /** How many octets a drawn number is written in: the loop over max stops at `i > 1`. */
  function Width(i: nat): nat
  {
    if i <= 1 then 0 else 1 + Width(i / 256)
  }

  function RangeOctets(hi: nat, v: nat): seq<byte> { BE(v, Width(hi)) }

  /** The number of octets a bound really needs. */
  function OctetCount(i: nat): nat
  {
    if i == 0 then 0 else 1 + OctetCount(i / 256)
  }

  function LeadingOctet(i: nat): nat
  {
    if i < 256 then i else LeadingOctet(i / 256)
  }

  /** The digit loop drops an octet exactly when the bound's leading octet is 1. */
  lemma {:induction false} WidthExact(i: nat)
    ensures Width(i) == if LeadingOctet(i) == 1 then OctetCount(i) - 1 else OctetCount(i)
    ensures i > 0 ==> Pow(OctetCount(i) - 1) <= i < Pow(OctetCount(i))
    ensures i > 0 ==> LeadingOctet(i) > 0
  {
    if i >= 256 {
      WidthExact(i / 256);
      assert OctetCount(i) == 1 + OctetCount(i / 256);
    } else if i > 0 {
      assert OctetCount(i / 256) == 0;
      assert Pow(1) == 256 * Pow(0);
    }
  }

  /** A drawn number is written in full exactly when the leading octet of the upper bound is at
      least 2 or the number is short enough to survive the cut. */
  lemma DrawnInFull(lo: nat, hi: nat, roll: nat)
    requires lo < hi
    ensures var v := Draw(lo, hi, roll);
            && RangeAllows(lo, hi, v)
            && |RangeOctets(hi, v)| == Width(hi)
            && (Value(RangeOctets(hi, v)) == v <==> LeadingOctet(hi) >= 2 || v < Pow(OctetCount(hi) - 1))
  {
    var v := Draw(lo, hi, roll);
    WidthExact(hi);
    ValueOfBE(v, Width(hi));
    if v < Pow(Width(hi)) {
      ModUnique(v, Pow(Width(hi)), 0, v);
    } else {
      assert v % Pow(Width(hi)) < Pow(Width(hi));
    }
  }

  /** decode_terminal_range writes every number it can draw in full exactly when the leading octet
      of its upper bound is at least 2 or the bound is a power of 256. */
  lemma RangeExact(lo: nat, hi: nat)
    requires lo < hi
    ensures (forall roll: nat :: Value(RangeOctets(hi, Draw(lo, hi, roll))) == Draw(lo, hi, roll))
       <==> LeadingOctet(hi) >= 2 || hi == Pow(OctetCount(hi) - 1)
  {
    hide RangeOctets, Value, LeadingOctet, OctetCount, Pow, Width;
    WidthExact(hi);
    forall roll: nat ensures Value(RangeOctets(hi, Draw(lo, hi, roll))) == Draw(lo, hi, roll)
                        <==> LeadingOctet(hi) >= 2 || Draw(lo, hi, roll) < Pow(OctetCount(hi) - 1)
                     ensures Draw(lo, hi, roll) < hi
    {
      DrawnInFull(lo, hi, roll);
    }
    DrawAllowed(lo, hi, hi - 1);
  }

  lemma Value2(a: byte, b: byte)
    ensures Value([a, b]) == a * 256 + b
  {
    assert [a, b][..1] == [a] && [a][..0] == [];
    assert Value([a]) == Value([]) * 256 + a;
  }

  /** What the two halves of a range text mean. */
  lemma RangeText(base: nat, lo: string, hi: string, x: seq<byte>, y: seq<byte>)
    requires base in {2, 10, 16} && '-' !in lo && '-' !in hi && hi != ""
    requires SymbolOctets(SymbolText(base, lo)) == Some(x) && SymbolOctets(SymbolText(base, hi)) == Some(y)
    requires Value(x) <= INT_MAX && Value(y) <= INT_MAX
    ensures ParseTerminal(SymbolText(base, lo) + ['-'] + hi) == Range(Value(x), Value(y))
  {
    hide SymbolOctets, Value;
    var head := SymbolText(base, lo);
    var s := head + ['-'] + hi;
    assert s == head + (['-'] + hi);
    SpanOf(head, ['-'] + hi, '-');
    CountSplit(s, |head|, '-');
    CountNone(head, '-');
    CountNone(hi, '-');
    assert s[..|head|] == head && s[|head|..] == ['-'] + hi && s[|head| + 1..] == hi;
    assert (['-'] + hi)[1..] == hi && s[..2] + hi == SymbolText(base, hi);
    assert s[1] == head[1];
  }

  /* --- Quoted strings --- */

  function Shift(c: char): byte
  {
    (if 'A' <= c <= 'Z' then c as int + 20 else c as int) % 256
  }

  function ShiftAll(s: string): (r: seq<byte>)
    ensures |r| == |s|
    ensures forall i | 0 <= i < |s| :: r[i] == Shift(s[i])
  {
    seq(|s|, i requires 0 <= i < |s| => Shift(s[i]))
  }

  /** decode_quoted: what lies between the first quote and the next one. Capital letters move up
      by decimal 20 (hexadecimal 20 would be lower case). */
  function Quoted(s: string): seq<byte>
    requires s != ""
  {
    ShiftAll(s[1..Span(s[1..], '"') + 1])
  }

  function Lowered(c: char): byte
  {
    (if 'A' <= c <= 'Z' then c as int + 32 else c as int) % 256
  }

  /** What the shift is for: section 2.3 of RFC 5234 reads quoted letters in either case. */
  function LoweredAll(s: string): (r: seq<byte>)
    ensures |r| == |s|
    ensures forall i | 0 <= i < |s| :: r[i] == Lowered(s[i])
  {
    seq(|s|, i requires 0 <= i < |s| => Lowered(s[i]))
  }

  lemma QuotedText(s: string)
    requires '"' !in s
    ensures Quoted(['"'] + s + ['"']) == ShiftAll(s)
  {
    var q := ['"'] + s + ['"'];
    assert q[1..] == s + ['"'];
    SpanOf(s, ['"'], '"');
    assert q[1..|s| + 1] == s;
  }

  lemma ShiftIsLower(c: char)
    ensures Shift(c) == Lowered(c) <==> !('A' <= c <= 'Z')
  {
  }

  /** Quoted text decodes to its lower-case form exactly when there is no capital letter in it. */
  lemma LowerCaseExactly(s: string)
    requires '"' !in s
    ensures Quoted(['"'] + s + ['"']) == LoweredAll(s) <==> forall i | 0 <= i < |s| :: !('A' <= s[i] <= 'Z')
  {
    hide Quoted, Shift, Lowered;
    QuotedText(s);
    forall i | 0 <= i < |s| ensures ShiftAll(s)[i] == LoweredAll(s)[i] <==> !('A' <= s[i] <= 'Z') {
      ShiftIsLower(s[i]);
    }
  }

  /** The hexadecimal digit A decodes to the letter U. */
  lemma HexDigitExample(s: string)
    requires s == ['"', 'A', '"']
    ensures ParseElement(s) == Literal([0x55]) && LoweredAll("A") == [0x61]
  {
    assert s[1..] == ['A', '"'] && s[1..2] == "A";
    SpanOf("A", ['"'], '"');
    assert "A" + ['"'] == s[1..];
  }

  /* --- Repetition prefixes and the element dispatch --- */

  predicate IsDecimal(c: char) { '0' <= c <= '9' }

  function DigitSpan(s: string): (k: nat)
    ensures k <= |s| && IsNumeral(s[..k], 10) && (k < |s| ==> !IsDecimal(s[k]))
    ensures k > 0 <==> s != "" && IsDecimal(s[0])
  {
    if s == "" || !IsDecimal(s[0]) then 0
    else
      var k := 1 + DigitSpan(s[1..]);
      assert s[..k] == [s[0]] + s[1..][..k - 1];
      k
  }

  /** Bounds and remaining text of `<min>*<max>item`, `<n>item`, `*item` (section 3.6 and 3.7). */
  function RepetitionParts(s: string): (r: (nat, nat, string))
    ensures s != "" && (IsDecimal(s[0]) || s[0] == '*') ==> |r.2| < |s|
  {
    var k := DigitSpan(s);
    var min := Numeral(s[..k], 10);
    if k < |s| && s[k] == '*' then
      var m := DigitSpan(s[k + 1..]);
      (min, if m == 0 then REPETITION_INFTY else Numeral(s[k + 1..][..m], 10), s[k + 1..][m..])
    else (min, min, s[k..])
  }

  function ParseElement(s: string): Element
    decreases |s|
  {
    if s == "" then Rule(s)
    else if IsDecimal(s[0]) || s[0] == '*' then
      var (min, max, item) := RepetitionParts(s);
      Repeat(min, max, ParseElement(item))
    else if s[0] == '%' then ParseTerminal(s)
    else if s[0] == '"' then Literal(Quoted(s))
    else if s[0] == '[' || s[0] == ']' then Skip
    else Rule(s)
  }

  function ParseAll(words: seq<string>): (es: seq<Element>)
    ensures |es| == |words|
    ensures forall i | 0 <= i < |words| :: es[i] == ParseElement(words[i])
  {
    seq(|words|, i requires 0 <= i < |words| => ParseElement(words[i]))
  }

  /** The elements of one alternative: its blank-separated pieces, in order. */
  function Elements(text: string): seq<Element> { ParseAll(Tokens(text, ' ')) }

  /** How many copies a repetition may make: min..max, and what C's remainder makes of bounds in
      the wrong order (nothing when max is min - 1, a division by zero). */
  predicate CountAllows(min: nat, max: nat, n: nat)
  {
    if min <= max then min <= n <= max else min <= n <= 2 * min - max - 2
  }

  predicate BadCount(min: nat, max: nat) { max - min + 1 == 0 }

  /** rand() % (max - min + 1) + min with C's remainder. */
  function DrawCount(min: nat, max: nat, roll: nat): nat
    requires !BadCount(min, max)
  {
    roll % (if min <= max then max - min + 1 else min - max - 1) + min
  }

  lemma DrawCountAllowed(min: nat, max: nat, n: nat)
    requires CountAllows(min, max, n)
    ensures !BadCount(min, max) && DrawCount(min, max, n - min) == n
  {
  }

  lemma DrawAllowed(lo: nat, hi: nat, v: nat)
    requires RangeAllows(lo, hi, v)
    ensures lo != hi && Draw(lo, hi, v - lo) == v
  {
  }
}
