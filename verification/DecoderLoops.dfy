/** decode_rule and its helpers in the form the source has (grammar/packet-generator.c): loops over
    growing buffers, one rand() at a time, proved against module Decoder. */
module DecoderLoops {
  import opened Octets
  import opened CText
  import opened Abnf
  import opened Language
  import opened Decoder

  /** rand(), drawing from a tape fixed in advance. */
  class Rng {
    var tape: Tape

    constructor (t: Tape)
      ensures tape == t
    {
      tape := t;
    }

    method Roll() returns (r: Option<nat>)
      modifies this
      ensures old(tape) == [] ==> r == None && tape == []
      ensures old(tape) != [] ==> r == Some(old(tape)[0]) && tape == old(tape)[1..]
    {
      if tape == [] {
        r := None;
      } else {
        r := Some(tape[0]);
        tape := tape[1..];
      }
    }
  }

  /** The method's results and the tape it leaves are what the function says. */
  predicate Returned(why: Option<Failure>, octets: seq<byte>, tape: Tape, r: Outcome)
  {
    match r
    case Ok(b, rest) => why == None && octets == b && tape == rest
    case Fail(w) => why == Some(w)
  }

  /** realloc: a buffer of the new length with the old contents, as far as they fit. */
  method Realloc(buffer: array<byte>, length: nat) returns (r: array<byte>)
    ensures fresh(r) && r.Length == length
    ensures forall i | 0 <= i < length && i < buffer.Length :: r[i] == buffer[i]
  {
    r := new byte[length](_ => 0);
    for i := 0 to if length < buffer.Length then length else buffer.Length
      invariant forall k | 0 <= k < i :: r[k] == buffer[k]
    {
      r[i] := buffer[i];
    }
  }

  /* --- Terminals --- */

  /** strtok over the dots, strtol on each piece; a missing token is a null pointer for strtol. */
  method DecodeTerminalSymbol(symbol: string) returns (ok: bool, octets: array<byte>)
    requires |symbol| >= 2
    ensures fresh(octets)
    ensures ok <==> SymbolOctets(symbol).Some?
    ensures ok ==> octets[..] == SymbolOctets(symbol).value
  {
    hide Octet, Tokens, StrTok, Count;
    var characters := Count(symbol, '.') + 1;
    var base := BaseOf(symbol);
    octets := new byte[characters](_ => 0);
    var left := symbol[2..];
    ghost var words := Tokens(left, '.');
    SymbolTokens(symbol);
    var i := 0;
    ok := true;
    while i < characters
      invariant 0 <= i <= characters && octets.Length == characters
      invariant i <= |words| && Tokens(left, '.') == words[i..]
      invariant forall k | 0 <= k < i :: octets[k] == Octet(words[k], base)
    {
      var token := StrTok(left, '.');
      if token == None {
        TokensEnd(left, '.');
        return false, octets;
      }
      TokensStep(left, words, i, '.');
      octets[i] := Octet(token.value.0, base);
      left := token.value.1;
      i := i + 1;
    }
  }

  /** There is a piece for every strtok call at most. */
  lemma SymbolTokens(symbol: string)
    requires |symbol| >= 2
    ensures |Tokens(symbol[2..], '.')| <= Count(symbol, '.') + 1
  {
    TokensCount(symbol[2..], '.');
    CountSplit(symbol, 2, '.');
  }

  /** The sum loop: least significant octet first, the multiplier growing by 256. */
  method ValueOfOctets(octets: array<byte>) returns (v: nat)
    ensures v == Value(octets[..])
  {
    v := 0;
    var multiplier: nat := 1;
    var n := octets.Length;
    for i := 0 to n
      invariant multiplier == Pow(i) && v == Value(octets[n - i..])
    {
      ValueCons(octets[n - i - 1], octets[n - i..]);
      assert [octets[n - i - 1]] + octets[n - i..] == octets[n - i - 1..];
      v := v + octets[n - i - 1] * multiplier;
      multiplier := multiplier * 256;
    }
    assert octets[0..] == octets[..];
  }

  lemma {:induction false} ValueCons(x: byte, s: seq<byte>)
    ensures Value([x] + s) == x * Pow(|s|) + Value(s)
  {
    if s != [] {
      var t := [x] + s;
      assert t[..|t| - 1] == [x] + s[..|s| - 1];
      ValueCons(x, s[..|s| - 1]);
      ScaleStep(x, Pow(|s| - 1), Value(s[..|s| - 1]), s[|s| - 1]);
    } else {
      assert [x] + s == [x] && [x][..0] == [];
    }
  }

  lemma ScaleStep(x: nat, p: nat, v: nat, d: nat)
    ensures (x * p + v) * RADIX + d == x * (RADIX * p) + (v * RADIX + d)
  {
  }

  /** The length loop over max and the fill loop from the last octet backwards. */
  method WriteNumber(max: nat, gen: nat) returns (octets: array<byte>)
    ensures fresh(octets) && octets[..] == RangeOctets(max, gen)
  {
    var length := 0;
    var m := max;
    while m > 1
      invariant length + Width(m) == Width(max)
    {
      m := m / 256;
      length := length + 1;
    }
    octets := new byte[length](_ => 0);
    var left: nat := gen;
    var i := 0;
    hide BE;
    while i < length && left > 0
      invariant 0 <= i <= length
      invariant forall k | 0 <= k < length - i :: octets[k] == 0
      invariant BE(gen, length) == BE(left, length - i) + octets[length - i..]
    {
      LastDigit(left, length - i);
      octets[length - i - 1] := left % 256;
      assert octets[length - i - 1..] == [left % 256] + octets[length - i..];
      left := left / 256;
      i := i + 1;
    }
    if left == 0 {
      ZeroDigits(length - i);
      assert octets[..length - i] == BE(0, length - i);
    }
    assert octets[..] == octets[..length - i] + octets[length - i..];
  }

  lemma LastDigit(v: nat, k: nat)
    requires k > 0
    ensures BE(v, k) == BE(v / 256, k - 1) + [v % 256]
  {
  }

  lemma {:induction false} ZeroDigits(k: nat)
    ensures forall i | 0 <= i < k :: BE(0, k)[i] == 0
  {
    if k > 0 { ZeroDigits(k - 1); }
  }

  /** decode_terminal_range: the text is cut at the dash, its first half decoded; then percent sign
      and base letter are written in front of the second half, over the end of the first. */
  method DecodeTerminalRange(s: string, rng: Rng) returns (why: Option<Failure>, octets: array<byte>)
    requires |s| >= 2 && s[0] == '%' && Count(s, '-') == 1
    modifies rng
    ensures fresh(octets)
    ensures Returned(why, octets[..], rng.tape, DecodeElement([], ParseTerminal(s), old(rng.tape), 0))
  {
    hide SymbolOctets, Value, BE, Width, RangeOctets, Count;
    why, octets := Some(Crash), new byte[0];
    var base := BaseOf(s);
    var buffer := new char[|s|](i requires 0 <= i < |s| => s[i]);
    var cut := Span(s, '-');
    if cut < 2 || cut >= |s| { return; }
    buffer[cut] := '\0';
    assert buffer[..cut] == s[..cut];
    var okLo, lo := DecodeTerminalSymbol(buffer[..cut]);
    if !okLo { return; }
    var min := ValueOfOctets(lo);
    if cut + 1 == |s| { return; }
    buffer[cut - 1] := '%';
    if base != 0 { buffer[cut] := BaseLetter(base); }
    // Without a base letter the text ends behind the percent sign, and the copy of what follows
    // outgrows the octet allocated for it.
    if base == 0 { return; }
    assert buffer[cut - 1..] == s[..2] + s[cut + 1..];
    var okHi, hi := DecodeTerminalSymbol(buffer[cut - 1..]);
    if !okHi { return; }
    var max := ValueOfOctets(hi);
    if min > INT_MAX || max > INT_MAX { return; }
    assert ParseTerminal(s) == Range(min, max);
    why, octets := GenerateInRange(min, max, rng);
  }

  /** rand() % (max - min) + min, written out: no number without a roll, a crash when min == max. */
  method GenerateInRange(min: nat, max: nat, rng: Rng) returns (why: Option<Failure>, octets: array<byte>)
    modifies rng
    ensures fresh(octets)
    ensures Returned(why, octets[..], rng.tape, DecodeElement([], Range(min, max), old(rng.tape), 0))
  {
    octets := new byte[0];
    var roll := rng.Roll();
    if roll == None {
      why := Some(OutOfNumbers);
    } else if min == max {
      why := Some(Crash);
    } else {
      why := None;
      octets := WriteNumber(max, Draw(min, max, roll.value));
    }
  }

  /** decode_terminal: one dash makes a range, anything else a symbol. */
  method DecodeTerminal(s: string, rng: Rng) returns (why: Option<Failure>, octets: array<byte>)
    requires s != "" && s[0] == '%'
    modifies rng
    ensures fresh(octets)
    ensures Returned(why, octets[..], rng.tape, DecodeElement([], ParseTerminal(s), old(rng.tape), 0))
  {
    if |s| < 2 { return Some(Crash), new byte[0]; }
    if Count(s, '-') == 1 {
      why, octets := DecodeTerminalRange(s, rng);
    } else {
      var ok;
      ok, octets := DecodeTerminalSymbol(s);
      why := if ok then None else Some(Crash);
    }
  }

  /** decode_quoted on a copy of the text after the first quote: capitals are moved up in place, the
      next quote becomes the end of the string. */
  method DecodeQuoted(s: string) returns (octets: array<byte>)
    requires s != ""
    ensures fresh(octets) && octets[..] == Quoted(s)
  {
    var n := |s| - 1;
    var quoted := new byte[n](k requires 0 <= k < n => (s[k + 1] as int) % 256);
    var length, i := n, 0;
    while i < length
      invariant 0 <= i <= length <= n
      invariant forall k | 0 <= k < i :: quoted[k] == Shift(s[k + 1])
      invariant '"' !in s[1..i + 1]
      invariant forall k | i <= k < length :: quoted[k] == (s[k + 1] as int) % 256
      invariant length < n ==> i == length && s[length + 1] == '"'
    {
      if s[i + 1] == '"' {
        quoted[i] := 0;
        length := i;
      } else {
        if 'A' <= s[i + 1] <= 'Z' { quoted[i] := (s[i + 1] as int + 20) % 256; }
        assert quoted[i] == Shift(s[i + 1]) && s[1..i + 2] == s[1..i + 1] + [s[i + 1]];
        i := i + 1;
      }
    }
    QuotedIs(s, length);
    octets := Realloc(quoted, length);
    assert octets[..] == Quoted(s);
  }

  lemma QuotedIs(s: string, length: nat)
    requires length < |s| && '"' !in s[1..length + 1] && (length < |s| - 1 ==> s[length + 1] == '"')
    ensures |Quoted(s)| == length && forall k | 0 <= k < length :: Quoted(s)[k] == Shift(s[k + 1])
  {
    assert s[1..][..length] == s[1..length + 1];
    SpanIs(s[1..], '"', length);
  }

  lemma {:induction false} SpanIs(s: string, d: char, k: nat)
    requires k <= |s| && d !in s[..k] && (k < |s| ==> s[k] == d)
    ensures Span(s, d) == k
    decreases k
  {
    if k > 0 {
      assert s[..k] == [s[0]] + s[1..][..k - 1];
      SpanIs(s[1..], d, k - 1);
    }
  }

  /* --- Repetitions --- */

  /** The digits from start to end are read, and they add up to v. */
  predicate DigitsRead(s: string, start: nat, end: nat, v: nat)
  {
    && start <= end <= |s|
    && IsNumeral(s[start..end], 10) && v == Numeral(s[start..end], 10)
    && end - start + DigitSpan(s[end..]) == DigitSpan(s[start..])
  }

  lemma NoDigitRead(s: string, start: nat)
    requires start <= |s|
    ensures DigitsRead(s, start, start, 0)
  {
  }

  lemma NextDigit(s: string, start: nat, end: nat, v: nat)
    requires DigitsRead(s, start, end, v) && end < |s| && IsDecimal(s[end])
    ensures DigitsRead(s, start, end + 1, v * 10 + (s[end] as int - '0' as int))
  {
    var digits := s[start..end + 1];
    assert digits[..|digits| - 1] == s[start..end] && digits == s[start..end] + [s[end]];
    assert s[end..][1..] == s[end + 1..];
  }

  lemma LastDigitRead(s: string, start: nat, end: nat, v: nat)
    requires DigitsRead(s, start, end, v) && (end < |s| ==> !IsDecimal(s[end]))
    ensures end == start + DigitSpan(s[start..]) && IsNumeral(s[start..end], 10) && v == Numeral(s[start..end], 10)
  {
  }

  /** One of the two digit loops: the position after the digits and their value. */
  method ReadDigits(s: string, start: nat) returns (end: nat, v: nat)
    requires start <= |s|
    ensures end == start + DigitSpan(s[start..]) && v == Numeral(s[start..end], 10)
  {
    hide Numeral, IsNumeral, DigitSpan, DigitsRead;
    end, v := start, 0;
    NoDigitRead(s, start);
    while end < |s| && IsDecimal(s[end])
      invariant end <= |s| && DigitsRead(s, start, end, v)
    {
      NextDigit(s, start, end, v);
      v := v * 10 + (s[end] as int - '0' as int);
      end := end + 1;
    }
    LastDigitRead(s, start, end, v);
  }

  /** parse_repetition's prefix, digit by digit. */
  method ReadBounds(s: string) returns (min: nat, max: nat, item: string)
    ensures (min, max, item) == RepetitionParts(s)
  {
    var endOfFirst, endOfLast;
    endOfFirst, min := ReadDigits(s, 0);
    assert s[0..] == s;
    max := REPETITION_INFTY;
    endOfLast := endOfFirst;
    if endOfFirst < |s| && s[endOfFirst] == '*' {
      endOfLast := endOfFirst + 1;
      var last, read := ReadDigits(s, endOfLast);
      assert s[endOfLast..][..last - endOfLast] == s[endOfLast..last];
      if last > endOfLast { max := read; }
      assert s[endOfLast..][last - endOfLast..] == s[last..];
      endOfLast := last;
    } else {
      max := min;
    }
    item := s[endOfLast..];
  }

  lemma PrependTwice(a: seq<byte>, b: seq<byte>, r: Outcome)
    ensures Prepend(a, Prepend(b, r)) == Prepend(a + b, r)
  {
    if r.Ok? { assert a + (b + r.octets) == a + b + r.octets; }
  }

  /** parse_repetition: a rolled number of copies. */
  method ParseRepetition(s: string, env: Chain, rng: Rng, fuel: nat) returns (why: Option<Failure>, result: array<byte>)
    requires s != "" && (IsDecimal(s[0]) || s[0] == '*')
    modifies rng
    ensures fresh(result)
    ensures Returned(why, result[..], rng.tape, DecodeElement(env, ParseElement(s), old(rng.tape), fuel))
    ensures match ParseElement(s)
            case Repeat(min, max, Literal(b)) => Returned(why, result[..], rng.tape, Copied(min, max, b, old(rng.tape)))
            case _ => true
    decreases fuel, |s|, 0
  {
    result := new byte[0];
    RepetitionCopies(env, s, rng.tape, fuel);
    var min, max, item := ReadBounds(s);
    ghost var e := ParseElement(item);
    hide DecodeElement, DecodeTimes, Prepend, ParseElement, RepetitionParts;
    RepetitionIs(env, s, rng.tape, fuel);
    var roll := rng.Roll();
    if roll == None { return Some(OutOfNumbers), result; }
    if BadCount(min, max) { return Some(Crash), result; }
    var quantity := DrawCount(min, max, roll.value);
    if quantity == 0 {
      TimesNone(env, e, rng.tape, fuel);
      return None, result;
    }
    why, result := RepeatElement(item, quantity, env, rng, fuel);
  }

  /** parse_repetition's loop over the copies: the buffer starts at one octet per copy and doubles
      until the next copy leaves room to spare. */
  method RepeatElement(item: string, quantity: nat, env: Chain, rng: Rng, fuel: nat)
    returns (why: Option<Failure>, result: array<byte>)
    requires quantity > 0
    modifies rng
    ensures fresh(result)
    ensures Returned(why, result[..], rng.tape, DecodeTimes(env, ParseElement(item), quantity, old(rng.tape), fuel))
    decreases fuel, |item|, 2
  {
    hide DecodeElement, DecodeTimes, Prepend, ParseElement;
    ghost var e := ParseElement(item);
    ghost var whole := DecodeTimes(env, e, quantity, rng.tape, fuel);
    result := new byte[0];
    TimesBegin(env, e, quantity, rng.tape, fuel);
    var buffer := new byte[quantity](_ => 0);
    var position: nat := 0;
    for i := 0 to quantity
      invariant position <= buffer.Length && buffer.Length > 0 && fresh(buffer)
      invariant whole == Prepend(buffer[..position], DecodeTimes(env, e, quantity - i, rng.tape, fuel))
    {
      ghost var before, tape := buffer[..position], rng.tape;
      var failed, copy := ParseElementText(item, env, rng, fuel);
      TimesOnce(env, e, quantity - i, tape, fuel, before);
      if failed != None { return failed, result; }
      assert buffer[..position] == before;
      buffer := AppendDoubling(buffer, position, copy);
      position := position + copy.Length;
    }
    TimesDone(env, e, rng.tape, fuel, buffer[..position]);
    result := Realloc(buffer, position);
    assert result[..] == buffer[..position];
    why := None;
  }

  /** Fixed octets are copied as often as the roll's remainder says. */
  lemma RepetitionCopies(env: Chain, s: string, t: Tape, fuel: nat)
    ensures match ParseElement(s)
            case Repeat(min, max, Literal(b)) => DecodeElement(env, ParseElement(s), t, fuel) == Copied(min, max, b, t)
            case _ => true
  {
    match ParseElement(s)
    case Repeat(min, max, Literal(b)) => CopiesRolled(env, min, max, b, t, fuel);
    case _ =>
  }

  /** The repetition a text stands for, draw by draw. */
  lemma RepetitionIs(env: Chain, s: string, t: Tape, fuel: nat)
    requires s != "" && (IsDecimal(s[0]) || s[0] == '*')
    ensures var (min, max, item) := RepetitionParts(s);
            var r := DecodeElement(env, ParseElement(s), t, fuel);
            && (t == [] ==> r == Fail(OutOfNumbers))
            && (t != [] && BadCount(min, max) ==> r == Fail(Crash))
            && (t != [] && !BadCount(min, max) ==>
                  r == DecodeTimes(env, ParseElement(item), DrawCount(min, max, t[0]), t[1..], fuel))
  {
  }

  lemma TimesNone(env: Chain, e: Element, t: Tape, fuel: nat)
    ensures DecodeTimes(env, e, 0, t, fuel) == Ok([], t)
  {
  }

  lemma TimesBegin(env: Chain, e: Element, n: nat, t: Tape, fuel: nat)
    ensures DecodeTimes(env, e, n, t, fuel) == Prepend([], DecodeTimes(env, e, n, t, fuel))
  {
    var r := DecodeTimes(env, e, n, t, fuel);
    if r.Ok? { assert [] + r.octets == r.octets; }
  }

  lemma TimesDone(env: Chain, e: Element, t: Tape, fuel: nat, done: seq<byte>)
    ensures Prepend(done, DecodeTimes(env, e, 0, t, fuel)) == Ok(done, t)
  {
    assert done + [] == done;
  }

  /** One round of the repetition loop, on the function's side. */
  lemma TimesOnce(env: Chain, e: Element, n: nat, t: Tape, fuel: nat, before: seq<byte>)
    requires n > 0
    ensures DecodeElement(env, e, t, fuel).Fail? ==>
              Prepend(before, DecodeTimes(env, e, n, t, fuel)) == DecodeElement(env, e, t, fuel)
    ensures DecodeElement(env, e, t, fuel).Ok? ==>
              Prepend(before, DecodeTimes(env, e, n, t, fuel))
              == Prepend(before + DecodeElement(env, e, t, fuel).octets,
                         DecodeTimes(env, e, n - 1, DecodeElement(env, e, t, fuel).rest, fuel))
  {
    var r := DecodeElement(env, e, t, fuel);
    if r.Ok? { PrependTwice(before, r.octets, DecodeTimes(env, e, n - 1, r.rest, fuel)); }
  }

  /** Double the buffer until the next part leaves room to spare, then copy it in. */
  method AppendDoubling(buffer: array<byte>, position: nat, part: array<byte>) returns (r: array<byte>)
    requires position <= buffer.Length && buffer.Length > 0 && buffer != part
    modifies buffer
    ensures r == buffer || fresh(r)
    ensures position + part.Length < r.Length
    ensures r[..position + part.Length] == old(buffer[..position]) + old(part[..])
  {
    r := buffer;
    var realLength := buffer.Length;
    while position + part.Length >= realLength
      invariant realLength == r.Length > 0 && position <= realLength && (r == buffer || fresh(r)) && r != part
      invariant r[..position] == old(buffer[..position]) && part[..] == old(part[..])
      decreases position + part.Length - realLength
    {
      r := Realloc(r, 2 * realLength);
      realLength := 2 * realLength;
      assert r[..position] == old(buffer[..position]);
    }
    CopyInto(r, position, part);
  }

  /** memcpy. */
  method CopyInto(buffer: array<byte>, position: nat, source: array<byte>)
    requires position + source.Length <= buffer.Length && buffer != source
    modifies buffer
    ensures buffer[..] == old(buffer[..position]) + source[..] + old(buffer[position + source.Length..])
  {
    forall k | 0 <= k < source.Length { buffer[position + k] := source[k]; }
  }

  /* --- Elements --- */

  /** parse_elements: one strtok per element, the buffer regrown to twice the total whenever the
      total reaches its size. */
  method ParseElements(text: string, env: Chain, rng: Rng, fuel: nat) returns (why: Option<Failure>,
      result: array<byte>)
    modifies rng
    ensures fresh(result)
    ensures Returned(why, result[..], rng.tape, DecodeElements(env, Elements(text), old(rng.tape), fuel))
    decreases fuel, |text|, 2
  {
    hide DecodeElement, DecodeElements, Prepend, Count, StrTok, Tokens;
    var fields := Count(text, ' ') + 1;
    ghost var words := Tokens(text, ' ');
    ghost var es := Elements(text);
    TokensCount(text, ' ');
    ghost var whole := DecodeElements(env, es, rng.tape, fuel);
    ElementsBegin(env, es, rng.tape, fuel);
    result := new byte[0];
    var buffer := new byte[0];
    var totalLength: nat, realLength: nat := 0, 1;
    var left := text;
    var token := StrTok(left, ' ');
    var i := 0;
    assert words[0..] == words;
    while i < fields && token != None
      invariant 0 <= i <= |words| && |left| <= |text| && token == StrTok(left, ' ') && Tokens(left, ' ') == words[i..]
      invariant fresh(buffer) && Roomy(buffer.Length, totalLength, realLength)
      invariant whole == Prepend(buffer[..totalLength], DecodeElements(env, es[i..], rng.tape, fuel))
    {
      var (word, rest) := token.value;
      ghost var before, tape := buffer[..totalLength], rng.tape;
      TokensStep(left, words, i, ' ');
      TokenShorter(left, ' ');
      var failed, part := ParseElementText(word, env, rng, fuel);
      ElementsOnce(env, es, i, tape, fuel, before);
      if failed != None { return failed, result; }
      assert buffer[..totalLength] == before;
      buffer, realLength := AppendRegrowing(buffer, totalLength, realLength, part);
      totalLength := totalLength + part.Length;
      left := rest;
      token := StrTok(left, ' ');
      i := i + 1;
    }
    if token == None { TokensEnd(left, ' '); }
    assert i == |words|;
    ElementsDone(env, es, i, rng.tape, fuel, buffer[..totalLength]);
    result := Realloc(buffer, totalLength);
    assert result[..] == buffer[..totalLength];
    why := None;
  }

  /** The buffer is either still missing, with nothing to hold, or longer than what it holds. */
  predicate Roomy(length: nat, totalLength: nat, realLength: nat)
  {
    (totalLength == length == 0 && realLength == 1) || totalLength < realLength == length
  }

  /** Regrow to twice the new total when that reaches the buffer's size, then copy the part in. */
  method AppendRegrowing(buffer: array<byte>, totalLength: nat, realLength: nat, part: array<byte>)
    returns (r: array<byte>, newLength: nat)
    requires Roomy(buffer.Length, totalLength, realLength) && buffer != part
    modifies buffer
    ensures r == buffer || fresh(r)
    ensures Roomy(r.Length, totalLength + part.Length, newLength)
    ensures r[..totalLength + part.Length] == old(buffer[..totalLength]) + old(part[..])
  {
    r, newLength := buffer, realLength;
    var total := totalLength + part.Length;
    if total >= realLength {
      r := Realloc(r, total * 2);
      newLength := total * 2;
      assert r[..totalLength] == buffer[..totalLength];
    }
    CopyInto(r, totalLength, part);
  }

  lemma TokensEnd(s: string, d: char)
    requires StrTok(s, d) == None
    ensures Tokens(s, d) == []
  {
  }

  lemma ElementsBegin(env: Chain, es: seq<Element>, t: Tape, fuel: nat)
    ensures es[0..] == es && DecodeElements(env, es, t, fuel) == Prepend([], DecodeElements(env, es[0..], t, fuel))
  {
    var r := DecodeElements(env, es, t, fuel);
    if r.Ok? { assert [] + r.octets == r.octets; }
  }

  lemma ElementsDone(env: Chain, es: seq<Element>, i: nat, t: Tape, fuel: nat, done: seq<byte>)
    requires i == |es|
    ensures Prepend(done, DecodeElements(env, es[i..], t, fuel)) == Ok(done, t)
  {
    assert es[i..] == [] && done + [] == done;
  }

  lemma TokensStep(left: string, words: seq<string>, i: nat, d: char)
    requires i <= |words| && Tokens(left, d) == words[i..] && StrTok(left, d).Some?
    ensures var (word, rest) := StrTok(left, d).value;
            i < |words| && words[i] == word && Tokens(rest, d) == words[i + 1..]
  {
    var (word, rest) := StrTok(left, d).value;
    assert words[i..] == [word] + Tokens(rest, d);
    assert words[i..][0] == word && words[i..][1..] == Tokens(rest, d);
  }

  /** One round of the element loop, on the function's side. */
  lemma ElementsOnce(env: Chain, es: seq<Element>, i: nat, t: Tape, fuel: nat, before: seq<byte>)
    requires i < |es|
    ensures DecodeElement(env, es[i], t, fuel).Fail? ==>
              Prepend(before, DecodeElements(env, es[i..], t, fuel)) == DecodeElement(env, es[i], t, fuel)
    ensures DecodeElement(env, es[i], t, fuel).Ok? ==>
              Prepend(before, DecodeElements(env, es[i..], t, fuel))
              == Prepend(before + DecodeElement(env, es[i], t, fuel).octets,
                         DecodeElements(env, es[i + 1..], DecodeElement(env, es[i], t, fuel).rest, fuel))
  {
    var r := DecodeElement(env, es[i], t, fuel);
    assert es[i..][0] == es[i] && es[i..][1..] == es[i + 1..];
    if r.Ok? { PrependTwice(before, r.octets, DecodeElements(env, es[i + 1..], r.rest, fuel)); }
  }

  lemma {:induction false} TokenShorter(s: string, d: char)
    requires StrTok(s, d).Some?
    ensures |StrTok(s, d).value.0| <= |s|
  {
    if s[0] == d { TokenShorter(s[1..], d); }
  }

  /** parse_element. */
  method ParseElementText(s: string, env: Chain, rng: Rng, fuel: nat) returns (why: Option<Failure>,
      result: array<byte>)
    modifies rng
    ensures fresh(result)
    ensures Returned(why, result[..], rng.tape, DecodeElement(env, ParseElement(s), old(rng.tape), fuel))
    decreases fuel, |s|, 1
  {
    if s != "" && (IsDecimal(s[0]) || s[0] == '*') {
      why, result := ParseRepetition(s, env, rng, fuel);
    } else if s != "" && s[0] == '%' {
      TerminalAnywhere(env, s, rng.tape, fuel);
      why, result := DecodeTerminal(s, rng);
    } else if s != "" && s[0] == '"' {
      result := DecodeQuoted(s);
      why := None;
    } else if s != "" && (s[0] == '[' || s[0] == ']') {
      result := new byte[0];
      why := None;
    } else {
      why, result := DecodeNamedRule(s, env, rng, fuel);
    }
  }

  /** Terminals need neither environment nor stack. */
  lemma TerminalAnywhere(env: Chain, s: string, t: Tape, fuel: nat)
    requires s != "" && s[0] == '%'
    ensures DecodeElement(env, ParseTerminal(s), t, fuel) == DecodeElement([], ParseTerminal(s), t, 0)
  {
  }

  /* --- Rules --- */

  method SelectAlternativeRule(alts: seq<string>, rng: Rng) returns (why: Option<Failure>, rule: string)
    modifies rng
    ensures alts == [] ==> why == Some(Crash)
    ensures alts != [] && old(rng.tape) == [] ==> why == Some(OutOfNumbers)
    ensures alts != [] && old(rng.tape) != [] ==>
              why == None && rule == alts[old(rng.tape)[0] % |alts|] && rng.tape == old(rng.tape)[1..]
  {
    rule := "";
    if alts == [] { return Some(Crash), rule; }
    var roll := rng.Roll();
    if roll == None { return Some(OutOfNumbers), rule; }
    why, rule := None, alts[roll.value % |alts|];
  }

  /** decode_rule. */
  method DecodeNamedRule(name: string, env: Chain, rng: Rng, fuel: nat) returns (why: Option<Failure>,
      result: array<byte>)
    modifies rng
    ensures fresh(result)
    ensures Returned(why, result[..], rng.tape, DecodeRule(env, name, old(rng.tape), fuel))
    decreases fuel, 0, 0
  {
    result := new byte[0];
    why := None;
    var keyValue := EnvironmentLookup(env, name);
    if keyValue == None { return; }
    if fuel == 0 { return Some(StackOverflow), result; }
    ghost var t := rng.tape;
    assert DecodeRule(env, name, t, fuel) == DecodeEntry(env, keyValue.value, t, fuel - 1);
    match keyValue.value
    case Text(text) => why, result := ParseElements(text, env, rng, fuel - 1);
    case Choice(alts) =>
      var failed, rule := SelectAlternativeRule(alts, rng);
      if failed != None { return failed, result; }
      why, result := ParseElements(rule, env, rng, fuel - 1);
    case Frozen(octets) =>
      result := new byte[|octets|](_ => 0);
      CopyIn(result, 0, octets);
      assert result[..] == octets;
    case Function(g) => why, result := RunGenerator(g, env, rng, fuel - 1);
  }

  /** shortstring_generator and longstring_generator: a length below 16, then that many first
      octets of OCTET, written in place behind the length. */
  method RunGenerator(g: Generator, env: Chain, rng: Rng, fuel: nat) returns (why: Option<Failure>, result: array<byte>)
    modifies rng
    ensures fresh(result)
    ensures Returned(why, result[..], rng.tape, DecodeGenerator(env, g, old(rng.tape), fuel))
    decreases fuel, 1, 0
  {
    result := new byte[0];
    var roll := rng.Roll();
    if roll == None { return Some(OutOfNumbers), result; }
    var n := roll.value % REPETITION_INFTY;
    hide DecodeRule, DecodeHeads;
    var start := if g.ShortString? then 1 else 4;
    var buffer := new byte[n + start](_ => 0);
    WriteLength(g, n, buffer);
    ghost var tape := rng.tape;
    why := FillHeads(buffer, start, env, rng, fuel);
    assert DecodeGenerator(env, g, old(rng.tape), fuel) == Prepend(LengthPrefix(g, n), DecodeHeads(env, n, tape, fuel));
    assert buffer[..] == buffer[..start] + buffer[start..];
    if why == None { result := buffer; }
  }

  /** First octets of OCTET into the rest of the buffer. */
  method FillHeads(buffer: array<byte>, start: nat, env: Chain, rng: Rng, fuel: nat) returns (why: Option<Failure>)
    requires start <= buffer.Length
    modifies rng, buffer
    ensures buffer[..start] == old(buffer[..start])
    ensures Returned(why, buffer[start..], rng.tape, DecodeHeads(env, buffer.Length - start, old(rng.tape), fuel))
    decreases fuel, 0, 1
  {
    hide DecodeRule;
    var length := buffer.Length;
    ghost var whole := DecodeHeads(env, length - start, rng.tape, fuel);
    for i := start to length
      invariant buffer[..start] == old(buffer[..start])
      invariant whole == Prepend(buffer[start..i], DecodeHeads(env, length - i, rng.tape, fuel))
    {
      ghost var before, tape := buffer[start..i], rng.tape;
      var failed, octets := DecodeNamedRule("OCTET", env, rng, fuel);
      HeadsOnce(env, length - i, tape, fuel, before);
      if failed != None { return failed; }
      if octets.Length == 0 { return Some(Crash); }
      buffer[i] := octets[0];
      assert buffer[start..i + 1] == before + [octets[0]];
    }
    why := None;
  }

  /** The length field in front. */
  method WriteLength(g: Generator, n: nat, buffer: array<byte>)
    requires n < REPETITION_INFTY && buffer.Length == n + if g.ShortString? then 1 else 4
    modifies buffer
    ensures buffer[..if g.ShortString? then 1 else 4] == LengthPrefix(g, n)
  {
    if g.ShortString? {
      buffer[0] := n;
    } else {
      IntInChar(buffer, n, 0, buffer.Length);
      assert n % 0x1_0000_0000 == n;
      assert buffer[..4] == BE(n, 4);
    }
  }

  /** One round of the generators' loop, on the function's side. */
  lemma HeadsOnce(env: Chain, n: nat, t: Tape, fuel: nat, before: seq<byte>)
    requires n > 0
    ensures DecodeRule(env, "OCTET", t, fuel).Fail? ==>
              Prepend(before, DecodeHeads(env, n, t, fuel)) == DecodeRule(env, "OCTET", t, fuel)
    ensures DecodeRule(env, "OCTET", t, fuel).Ok? && DecodeRule(env, "OCTET", t, fuel).octets == [] ==>
              Prepend(before, DecodeHeads(env, n, t, fuel)) == Fail(Crash)
    ensures DecodeRule(env, "OCTET", t, fuel).Ok? && DecodeRule(env, "OCTET", t, fuel).octets != [] ==>
              Prepend(before, DecodeHeads(env, n, t, fuel))
              == Prepend(before + [DecodeRule(env, "OCTET", t, fuel).octets[0]],
                         DecodeHeads(env, n - 1, DecodeRule(env, "OCTET", t, fuel).rest, fuel))
  {
    var r := DecodeRule(env, "OCTET", t, fuel);
    if r.Ok? && r.octets != [] { PrependTwice(before, [r.octets[0]], DecodeHeads(env, n - 1, r.rest, fuel)); }
  }
}
