/** Printing elements in the notation the grammar files use, and reading them back. */
module AbnfPrint {
  import opened Octets
  import opened CText
  import opened Abnf

  datatype Piece =
    | Symbol(base: nat, octets: seq<byte>)
    | Spelled(base: nat, words: seq<string>)
    | Interval(base: nat, lo: seq<byte>, hi: seq<byte>)
    | Named(name: string)
    | Quote(text: string)
    | Bracketed(text: string)
    | Exactly(n: nat, item: Piece)
    | AtLeast(n: nat, item: Piece)
    | Between(n: nat, m: nat, item: Piece)
    | Any(item: Piece)

  predicate Repetition(p: Piece) { p.Exactly? || p.AtLeast? || p.Between? || p.Any? }

  /** A character that starts neither a repetition nor any other special element. */
  predicate NameStart(c: char) { !IsDecimal(c) && c !in ['*', '%', '"', '[', ']', ' '] }

  predicate IntSized(octets: seq<byte>) { |octets| <= 3 || Value(octets) <= INT_MAX }

  lemma IntSizedFits(octets: seq<byte>)
    requires IntSized(octets)
    ensures Value(octets) <= INT_MAX
  {
    ValueBound(octets);
    assert Pow(3) == 256 * Pow(2) && Pow(2) == 256 * Pow(1) && Pow(1) == 256 * Pow(0);
  }

  predicate Valid(p: Piece)
  {
    match p
    case Symbol(base, octets) => base in {2, 10, 16} && octets != []
    case Spelled(base, words) =>
      base in {2, 10, 16} && words != [] && forall w | w in words :: w != "" && IsNumeral(w, base)
    case Interval(base, lo, hi) =>
      base in {2, 10, 16} && lo != [] && hi != [] && IntSized(lo) && IntSized(hi)
    case Named(name) => name != "" && NameStart(name[0]) && ' ' !in name
    case Quote(text) => '"' !in text && ' ' !in text
    case Bracketed(text) => ' ' !in text
    case Exactly(_, item) => Valid(item) && !Repetition(item)
    case AtLeast(_, item) => Valid(item) && !Repetition(item)
    case Between(_, _, item) => Valid(item) && !Repetition(item)
    case Any(item) => Valid(item) && !Repetition(item)
  }

  function Print(p: Piece): (s: string)
    requires Valid(p)
    ensures s != ""
  {
    match p
    case Symbol(base, octets) => SymbolText(base, Dotted(base, octets))
    case Spelled(base, words) => SymbolText(base, Join(words, '.'))
    case Interval(base, lo, hi) => SymbolText(base, Dotted(base, lo)) + ['-'] + Dotted(base, hi)
    case Named(name) => name
    case Quote(text) => ['"'] + text + ['"']
    case Bracketed(text) => ['['] + text + [']']
    case Exactly(n, item) => Show(n, 10) + Print(item)
    case AtLeast(n, item) => Show(n, 10) + ['*'] + Print(item)
    case Between(n, m, item) => Show(n, 10) + ['*'] + Show(m, 10) + Print(item)
    case Any(item) => ['*'] + Print(item)
  }

  function ElementOf(p: Piece): Element
  {
    match p
    case Symbol(_, octets) => Literal(octets)
    case Spelled(base, words) => Literal(OctetsOf(words, base))
    case Interval(_, lo, hi) => Range(Value(lo), Value(hi))
    case Named(name) => Rule(name)
    case Quote(text) => Literal(ShiftAll(text))
    case Bracketed(_) => Skip
    case Exactly(n, item) => Repeat(n, n, ElementOf(item))
    case AtLeast(n, item) => Repeat(n, REPETITION_INFTY, ElementOf(item))
    case Between(n, m, item) => Repeat(n, m, ElementOf(item))
    case Any(item) => Repeat(0, REPETITION_INFTY, ElementOf(item))
  }

  lemma DottedFree(base: nat, octets: seq<byte>)
    requires base in {2, 10, 16} && octets != []
    ensures Dotted(base, octets) != "" && '-' !in Dotted(base, octets) && ' ' !in Dotted(base, octets)
  {
    JoinFree(ShowAll(octets, base), base);
  }

  lemma {:induction false} JoinFree(ws: seq<string>, base: nat)
    requires forall w | w in ws :: w != "" && IsNumeral(w, base)
    ensures ws != [] ==> Join(ws, '.') != ""
    ensures '-' !in Join(ws, '.') && ' ' !in Join(ws, '.')
  {
    if ws == [] { return; }
    assert forall w | w in ws[1..] :: w in ws;
    if |ws| > 1 { JoinFree(ws[1..], base); }
    assert ws[0] in ws;
    assert DigitValue('-') == -1 && DigitValue(' ') == -1;
  }

  /** What PrintParse says of one piece. */
  ghost predicate Reads(p: Piece)
    requires Valid(p)
  {
    && ParseElement(Print(p)) == ElementOf(p)
    && (!Repetition(p) ==> !IsDecimal(Print(p)[0]) && Print(p)[0] != '*')
    && ' ' !in Print(p)
  }

  lemma SymbolReads(p: Piece)
    requires p.Symbol? && Valid(p)
    ensures Reads(p)
  {
    var s := Print(p);
    DottedFree(p.base, p.octets);
    SymbolRoundTrip(p.base, p.octets);
    assert s[2..] == Dotted(p.base, p.octets);
    CountNone(s, '-');
  }

  lemma SpelledReads(p: Piece)
    requires p.Spelled? && Valid(p)
    ensures Reads(p)
  {
    var dotted, s := Join(p.words, '.'), Print(p);
    forall w | w in p.words ensures Word(w, '.') {
      assert DigitValue('.') == -1;
    }
    JoinFree(p.words, p.base);
    TokensOfJoin(p.words, '.');
    CountNone(s, '-');
  }

  lemma IntervalText(p: Piece)
    requires p.Interval? && Valid(p)
    ensures ParseTerminal(Print(p)) == ElementOf(p)
  {
    DottedFree(p.base, p.lo);
    DottedFree(p.base, p.hi);
    SymbolRoundTrip(p.base, p.lo);
    SymbolRoundTrip(p.base, p.hi);
    IntSizedFits(p.lo);
    IntSizedFits(p.hi);
    RangeText(p.base, Dotted(p.base, p.lo), Dotted(p.base, p.hi), p.lo, p.hi);
  }

  lemma IntervalReads(p: Piece)
    requires p.Interval? && Valid(p)
    ensures Reads(p)
  {
    IntervalText(p);
    DottedFree(p.base, p.lo);
    DottedFree(p.base, p.hi);
  }

  lemma QuoteReads(p: Piece)
    requires p.Quote? && Valid(p)
    ensures Reads(p)
  {
    var s := Print(p);
    assert s[1..] == p.text + ['"'];
    SpanOf(p.text, ['"'], '"');
    assert s[1..|p.text| + 1] == p.text;
  }

  lemma PlainReads(p: Piece)
    requires (p.Named? || p.Bracketed?) && Valid(p)
    ensures Reads(p)
  {
  }

  /** The digit loops stop right after a printed number. */
  lemma {:induction false} DigitSpanOf(d: string, rest: string)
    requires IsNumeral(d, 10) && (rest == "" || !IsDecimal(rest[0]))
    ensures DigitSpan(d + rest) == |d|
  {
    if d == "" {
      assert d + rest == rest;
    } else {
      assert (d + rest)[1..] == d[1..] + rest;
      DecimalDigit(d[0]);
      DigitSpanOf(d[1..], rest);
    }
  }

  lemma DecimalDigit(c: char)
    ensures IsDecimal(c) <==> 0 <= DigitValue(c) < 10
  {
  }

  lemma NumberReads(n: nat, rest: string)
    requires rest == "" || !IsDecimal(rest[0])
    ensures var s := Show(n, 10) + rest; var k := DigitSpan(s);
            IsDecimal(s[0]) && k == |Show(n, 10)| && s[..k] == Show(n, 10) && s[k..] == rest && Numeral(s[..k], 10) == n
  {
    var d := Show(n, 10);
    DecimalDigit(d[0]);
    DigitSpanOf(d, rest);
    NumeralOfShow(n, 10);
    assert (d + rest)[..|d|] == d && (d + rest)[|d|..] == rest;
  }

  lemma ExactlyReads(n: nat, item: string)
    requires item != "" && !IsDecimal(item[0]) && item[0] != '*'
    ensures RepetitionParts(Show(n, 10) + item) == (n, n, item)
  {
    NumberReads(n, item);
  }

  lemma AtLeastReads(n: nat, item: string)
    requires item != "" && !IsDecimal(item[0])
    ensures RepetitionParts(Show(n, 10) + ['*'] + item) == (n, REPETITION_INFTY, item)
  {
    var s := Show(n, 10) + ['*'] + item;
    assert s == Show(n, 10) + (['*'] + item);
    NumberReads(n, ['*'] + item);
    var k := DigitSpan(s);
    assert s[k + 1..] == s[k..][1..] == item;
  }

  lemma BetweenReads(n: nat, m: nat, item: string)
    requires item != "" && !IsDecimal(item[0])
    ensures RepetitionParts(Show(n, 10) + ['*'] + Show(m, 10) + item) == (n, m, item)
  {
    var s := Show(n, 10) + ['*'] + Show(m, 10) + item;
    var t := Show(m, 10) + item;
    assert s == Show(n, 10) + (['*'] + t);
    NumberReads(n, ['*'] + t);
    NumberReads(m, item);
    var k := DigitSpan(s);
    assert s[k + 1..] == s[k..][1..] == t;
  }

  lemma AnyReads(item: string)
    requires item != "" && !IsDecimal(item[0])
    ensures RepetitionParts(['*'] + item) == (0, REPETITION_INFTY, item)
  {
    var s := ['*'] + item;
    assert s[1..] == item && s[..0] == "";
  }

  lemma RepetitionReads(p: Piece, min: nat, max: nat)
    requires Valid(p) && Repetition(p) && Reads(p.item) && ElementOf(p) == Repeat(min, max, ElementOf(p.item))
    requires ' ' !in Print(p) && (IsDecimal(Print(p)[0]) || Print(p)[0] == '*')
    requires RepetitionParts(Print(p)) == (min, max, Print(p.item))
    ensures Reads(p)
  {
  }

  /** Printing and parsing elements: the parser inverts the notation, piece by piece. */
  lemma {:induction false} PrintParse(p: Piece)
    requires Valid(p)
    ensures Reads(p)
  {
    match p
    case Symbol(_, _) => SymbolReads(p);
    case Spelled(_, _) => SpelledReads(p);
    case Interval(_, _, _) => IntervalReads(p);
    case Named(_) => PlainReads(p);
    case Quote(_) => QuoteReads(p);
    case Bracketed(_) => PlainReads(p);
    case _ => PrintParse(p.item); PrefixedReads(p);
  }

  lemma PrefixedReads(p: Piece)
    requires Valid(p) && Repetition(p) && Reads(p.item)
    ensures Reads(p)
  {
    var item := Print(p.item);
    match p
    case Exactly(n, _) =>
      ExactlyReads(n, item);
      NumberReads(n, item);
      DigitsBlankFree(Show(n, 10));
      RepetitionReads(p, n, n);
    case AtLeast(n, _) =>
      AtLeastReads(n, item);
      NumberReads(n, ['*'] + item);
      DigitsBlankFree(Show(n, 10));
      RepetitionReads(p, n, REPETITION_INFTY);
    case Between(n, m, _) =>
      BetweenReads(n, m, item);
      NumberReads(n, ['*'] + Show(m, 10) + item);
      DigitsBlankFree(Show(n, 10));
      DigitsBlankFree(Show(m, 10));
      RepetitionReads(p, n, m);
    case Any(_) =>
      AnyReads(item);
      RepetitionReads(p, 0, REPETITION_INFTY);
  }

  lemma DigitsBlankFree(d: string)
    requires IsNumeral(d, 10)
    ensures ' ' !in d
  {
    assert DigitValue(' ') == -1;
  }

  /* --- One alternative --- */

  predicate ValidAll(ps: seq<Piece>) { forall p | p in ps :: Valid(p) }

  function PrintAll(ps: seq<Piece>): (ws: seq<string>)
    requires ValidAll(ps)
    ensures |ws| == |ps|
    ensures forall i | 0 <= i < |ps| :: ws[i] == Print(ps[i])
  {
    seq(|ps|, i requires 0 <= i < |ps| => Print(ps[i]))
  }

  function ElementsOf(ps: seq<Piece>): (es: seq<Element>)
    ensures |es| == |ps|
    ensures forall i | 0 <= i < |ps| :: es[i] == ElementOf(ps[i])
  {
    seq(|ps|, i requires 0 <= i < |ps| => ElementOf(ps[i]))
  }

  function AlternativeText(ps: seq<Piece>): string
    requires ValidAll(ps)
  {
    Join(PrintAll(ps), ' ')
  }

  /** An alternative printed with single blanks is read as its elements, in order. */
  lemma AlternativeReads(ps: seq<Piece>)
    requires ValidAll(ps)
    ensures Elements(AlternativeText(ps)) == ElementsOf(ps)
  {
    var ws := PrintAll(ps);
    forall i | 0 <= i < |ps| ensures Word(ws[i], ' ') && ParseElement(ws[i]) == ElementOf(ps[i]) {
      PrintParse(ps[i]);
    }
    TokensOfJoin(ws, ' ');
  }

  /* --- Text that is safe on a line --- */

  /** No blank, and none of the delimiters of a grammar line. */
  predicate Neat(s: string) { forall c | c in s :: ' ' < c && c != '/' && c != ';' && c != '=' }

  /** A rule name as the grammar files have them. */
  predicate Name(s: string) { s != "" && NameStart(s[0]) && Neat(s) }

  lemma NameValid(n: string)
    requires Name(n)
    ensures Valid(Named(n))
  {
  }

  predicate NeatQuote(text: string) { '"' !in text && Neat(text) }

  /** What may stand in front of the equals sign. */
  predicate Key(s: string) { s != "" && ' ' < s[0] && ' ' < s[|s| - 1] && '=' !in s }

  lemma NamesAreKeys()
    ensures forall s | Name(s) :: Key(s)
  {
    forall s | Name(s) ensures Key(s) {
      NeatEnds(s);
    }
  }

  lemma NeatEnds(s: string)
    requires s != "" && Neat(s)
    ensures ' ' < s[0] && ' ' < s[|s| - 1]
  {
    assert s[0] in s && s[|s| - 1] in s;
  }

  predicate Tidy(p: Piece)
  {
    match p
    case Named(name) => Name(name)
    case Quote(text) => NeatQuote(text)
    case Bracketed(text) => Neat(text)
    case Exactly(_, item) => Tidy(item) && !Repetition(item)
    case AtLeast(_, item) => Tidy(item) && !Repetition(item)
    case Between(_, _, item) => Tidy(item) && !Repetition(item)
    case Any(item) => Tidy(item) && !Repetition(item)
    case _ => Valid(p)
  }

  predicate TidyAll(ps: seq<Piece>) { ps != [] && forall p | p in ps :: Tidy(p) }

  lemma {:induction false} TidyValid(p: Piece)
    requires Tidy(p)
    ensures Valid(p)
  {
    match p
    case Exactly(_, item) => TidyValid(item);
    case AtLeast(_, item) => TidyValid(item);
    case Between(_, _, item) => TidyValid(item);
    case Any(item) => TidyValid(item);
    case _ =>
  }

  lemma NumeralNeat(s: string, base: nat)
    requires IsNumeral(s, base)
    ensures Neat(s)
  {
    assert DigitValue('/') == DigitValue(';') == DigitValue('=') == -1;
    assert forall c: char | c <= ' ' :: DigitValue(c) == -1;
  }

  lemma {:induction false} DottedNeat(ws: seq<string>, base: nat)
    requires forall w | w in ws :: IsNumeral(w, base)
    ensures Neat(Join(ws, '.'))
  {
    if ws == [] { return; }
    NumeralNeat(ws[0], base);
    if |ws| > 1 { DottedNeat(ws[1..], base); }
  }

  lemma SymbolNeat(base: nat, ws: seq<string>)
    requires base in {2, 10, 16} && forall w | w in ws :: IsNumeral(w, base)
    ensures Neat(SymbolText(base, Join(ws, '.')))
  {
    DottedNeat(ws, base);
  }

  /** Printing a tidy piece brings in no delimiter. */
  lemma {:induction false} PrintNeat(p: Piece)
    requires Tidy(p) && Valid(p)
    ensures Neat(Print(p))
  {
    match p
    case Symbol(base, octets) => SymbolNeat(base, ShowAll(octets, base));
    case Spelled(base, words) => SymbolNeat(base, words);
    case Interval(base, lo, hi) =>
      SymbolNeat(base, ShowAll(lo, base));
      DottedNeat(ShowAll(hi, base), base);
    case Exactly(n, item) => PrintNeat(item); NumeralNeat(Show(n, 10), 10);
    case AtLeast(n, item) => PrintNeat(item); NumeralNeat(Show(n, 10), 10);
    case Between(n, m, item) => PrintNeat(item); NumeralNeat(Show(n, 10), 10); NumeralNeat(Show(m, 10), 10);
    case Any(item) => PrintNeat(item);
    case _ =>
  }

  /** Blanks inside, but not at the ends, and no line delimiter. */
  predicate Clean(s: string)
  {
    s != "" && ' ' < s[0] && ' ' < s[|s| - 1] && '/' !in s && ';' !in s
  }

  lemma {:induction false} JoinClean(ws: seq<string>)
    requires ws != [] && forall w | w in ws :: w != "" && Neat(w)
    ensures Clean(Join(ws, ' '))
  {
    assert ws[0] in ws;
    NeatEnds(ws[0]);
    if |ws| > 1 {
      assert forall w | w in ws[1..] :: w in ws;
      JoinClean(ws[1..]);
    }
  }

  /** So a tidy alternative can stand between the delimiters of a rule. */
  lemma AlternativeClean(ps: seq<Piece>)
    requires TidyAll(ps)
    ensures ValidAll(ps) && Clean(AlternativeText(ps))
  {
    forall p | p in ps ensures Valid(p) && Neat(Print(p)) {
      TidyValid(p);
      PrintNeat(p);
    }
    JoinClean(PrintAll(ps));
  }

  /** The documented reading of a range fails at an upper bound whose leading octet is 1: the
      range 256..511 is written in one octet. */
  lemma RangeCutExample(p: Piece)
    requires p == Interval(16, [1, 0], [1, 0xFF])
    ensures ParseElement(Print(p)) == Range(0x100, 0x1FF)
    ensures RangeOctets(0x1FF, Draw(0x100, 0x1FF, 0)) == [0]
  {
    Value2(1, 0);
    Value2(1, 0xFF);
    PrintParse(p);
    assert Width(0x1FF) == 1 + Width(1);
    assert BE(0x100, 1) == BE(1, 0) + [0];
  }
}
