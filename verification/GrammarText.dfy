/** Reading grammar files (grammar/grammar-parser.c): trim_string, parse_value and the per-line work
    of populate_grammar, and the lines a rule may be written as. */
module GrammarText {
  import opened CText
  import opened Language
  import opened Override
  import opened AbnfPrint
  import opened AmqpRules
  import opened AmqpGrammar

  predicate Blank(c: char) { c == ' ' || c == '\t' || c == '\n' || c == '\r' }

  predicate AllBlank(s: string) { forall i | 0 <= i < |s| :: Blank(s[i]) }

  /* --- Trimming --- */

  /** strspn over blanks. */
  function BlankSpan(s: string): (k: nat)
    ensures k <= |s| && AllBlank(s[..k]) && (k < |s| ==> !Blank(s[k]))
  {
    if s == "" || !Blank(s[0]) then 0
    else
      var k := 1 + BlankSpan(s[1..]);
      assert s[..k] == [s[0]] + s[1..][..k - 1];
      k
  }

  function DropEnd(s: string): (r: string)
    ensures |r| <= |s| && r == s[..|r|] && AllBlank(s[|r|..]) && (r != "" ==> !Blank(r[|r| - 1]))
    decreases |s|
  {
    if s == "" || !Blank(s[|s| - 1]) then s
    else
      var r := DropEnd(s[..|s| - 1]);
      assert s[|r|..] == s[..|s| - 1][|r|..] + [s[|s| - 1]];
      r
  }

  function Trim(s: string): string { DropEnd(s[BlankSpan(s)..]) }

  predicate Trimmed(s: string) { s == "" || (!Blank(s[0]) && !Blank(s[|s| - 1])) }

  /** Trim cuts blanks off both ends and nothing else: what is left is the one trimmed string
      between blanks, so it is maximal. */
  lemma TrimIs(s: string)
    ensures Trimmed(Trim(s))
    ensures var k := BlankSpan(s); k + |Trim(s)| <= |s| && s[k..k + |Trim(s)|] == Trim(s)
    ensures AllBlank(s[..BlankSpan(s)]) && AllBlank(s[BlankSpan(s) + |Trim(s)|..])
  {
    var k := BlankSpan(s);
    var r := DropEnd(s[k..]);
    assert r == s[k..][..|r|] == s[k..k + |r|];
    assert s[k..][|r|..] == s[k + |r|..];
    if r != "" { assert r[0] == s[k]; }
  }

  lemma {:induction false} BlankSpanOf(a: string, t: string)
    requires AllBlank(a) && (t == "" || !Blank(t[0]))
    ensures BlankSpan(a + t) == |a|
  {
    if a == "" {
      assert a + t == t;
    } else {
      assert (a + t)[1..] == a[1..] + t;
      BlankSpanOf(a[1..], t);
    }
  }

  lemma {:induction false} DropEndOf(t: string, b: string)
    requires AllBlank(b) && (t == "" || !Blank(t[|t| - 1]))
    ensures DropEnd(t + b) == t
    decreases |b|
  {
    var s := t + b;
    if b == "" {
      assert s == t;
    } else {
      assert s[..|s| - 1] == t + b[..|b| - 1] && s[|s| - 1] == b[|b| - 1];
      DropEndOf(t, b[..|b| - 1]);
    }
  }

  /** What counts as blank: space, tab, line feed and carriage return. */
  lemma TrimBlanks(c: char)
    ensures Trim([c]) == "" <==> c in " \t\n\r"
  {
    TrimIs([c]);
    assert [c][..0] == "" && [c][1..] == "";
  }

  /** Any trimmed text between blanks is recovered. */
  lemma TrimOf(a: string, t: string, b: string)
    requires AllBlank(a) && Trimmed(t) && AllBlank(b)
    ensures Trim(a + t + b) == t
  {
    var s := a + t + b;
    if t == "" {
      assert s == a + b && AllBlank(s);
      assert s + "" == s;
      BlankSpanOf(s, "");
      assert s[|s|..] == "";
    } else {
      assert s == a + (t + b);
      BlankSpanOf(a, t + b);
      assert s[|a|..] == t + b;
      DropEndOf(t, b);
    }
  }

  /** A C string in a buffer: its characters, then a NUL. */
  predicate Holds(buffer: seq<char>, s: string) { |s| < |buffer| && buffer[..|s|] == s && buffer[|s|] == '\0' }

  lemma Fits(buffer: seq<char>, s: string)
    requires Holds(buffer, s)
    ensures |s| < |buffer|
  {
  }

  lemma Slice(buffer: seq<char>, s: string, i: nat, j: nat)
    requires Holds(buffer, s) && i <= j <= |s|
    ensures buffer[i..j] == s[i..j] && (i < |s| ==> buffer[i] == s[i])
  {
    assert buffer[..|s|][i..j] == buffer[i..j];
    if i < |s| { assert buffer[..|s|][i] == buffer[i]; }
  }

  lemma TrimEnds(s: string)
    ensures Trim(s) == DropEnd(s[BlankSpan(s)..|s|])
    ensures BlankSpan(s) == |s| ==> Trim(s) == s[|s|..|s|]
    ensures BlankSpan(s) <= |s| && (BlankSpan(s) < |s| ==> !Blank(s[BlankSpan(s)]))
  {
    assert s[BlankSpan(s)..|s|] == s[BlankSpan(s)..];
  }

  lemma DropStep(s: string, start: nat, end: nat)
    requires start < end < |s| && Blank(s[end])
    ensures DropEnd(s[start..end + 1]) == DropEnd(s[start..end])
  {
    assert s[start..end + 1][..end - start] == s[start..end];
  }

  /** The end pointer walks back over blanks, but not past the start. */
  method FindEnd(str: array<char>, s: string) returns (end: int)
    requires Holds(str[..], s)
    ensures BlankSpan(s) <= end + 1 <= |s| && s[BlankSpan(s)..end + 1] == Trim(s)
  {
    var start := BlankSpan(s);
    end := |s| - 1;
    TrimEnds(s);
    hide *;
    Fits(str[..], s);
    while end > start && Blank(str[end])
      invariant -1 <= end < |s| && (end < start ==> end == |s| - 1)
      invariant start <= end ==> DropEnd(s[start..end + 1]) == Trim(s)
    {
      Slice(str[..], s, end, end);
      DropStep(s, start, end);
      end := end - 1;
    }
    if start <= end {
      Slice(str[..], s, end, end);
      LastKept(s, start, end);
    }
  }

  /** trim_string, in place: a NUL goes behind the last character kept, and what is kept moves to
      the front. */
  method TrimString(str: array<char>, s: string)
    requires Holds(str[..], s)
    modifies str
    ensures Holds(str[..], Trim(s))
  {
    hide Trim, BlankSpan;
    var start := BlankSpan(s);
    var end := FindEnd(str, s);
    var count := end + 1 - start;
    Slice(str[..], s, start, end + 1);
    assert str[start..end + 1] == str[..][start..end + 1];
    str[end + 1] := '\0';
    assert str[start..end + 1] == Trim(s);
    if start > 0 {
      ghost var kept := str[start..start + count + 1];
      assert kept == Trim(s) + ['\0'];
      MoveDown(str, start, count + 1);
      assert str[..count] == str[..count + 1][..count] && str[count] == str[..count + 1][count];
    }
  }

  lemma LastKept(s: string, start: nat, end: nat)
    requires start <= end < |s| && !Blank(s[start]) && (end > start ==> !Blank(s[end]))
    requires DropEnd(s[start..end + 1]) == Trim(s)
    ensures Trim(s) == s[start..end + 1]
  {
  }

  /** memmove to the front of the buffer. */
  method MoveDown(str: array<char>, from: nat, count: nat)
    requires from + count <= str.Length
    modifies str
    ensures str[..count] == old(str[from..from + count])
  {
    ghost var was := str[..];
    for i := 0 to count
      invariant str[..i] == was[from..from + i]
      invariant forall k | i <= k < str.Length :: str[k] == was[k]
    {
      str[i] := str[from + i];
    }
  }

  /* --- Values and lines --- */

  function TrimAll(ws: seq<string>): (r: seq<string>)
    ensures |r| == |ws| && forall i | 0 <= i < |ws| :: r[i] == Trim(ws[i])
  {
    seq(|ws|, i requires 0 <= i < |ws| => Trim(ws[i]))
  }

  /** parse_value. None: the text has no token, and the source compares with a null pointer. */
  function ParseValue(v: string): Option<Entry>
  {
    var entries := Tokens(v, '/');
    if entries == [] then None
    else if entries[0] == v then Some(Text(v))
    else Some(Choice(TrimAll(entries)))
  }

  /** A value has an entry unless it is all slashes; without a slash it is kept as it is, otherwise its
      trimmed pieces are the alternatives, were there only one. */
  lemma ValueExactly(v: string)
    ensures ParseValue(v) == None <==> Only(v, '/')
    ensures v != "" && '/' !in v ==> ParseValue(v) == Some(Text(v))
    ensures '/' in v && !Only(v, '/') ==> ParseValue(v) == Some(Choice(TrimAll(Tokens(v, '/'))))
  {
    TokensExactly(v, '/');
    if v != "" && '/' !in v {
      TokensWord(v, '/');
      assert v[0] != '/';
    }
    if Tokens(v, '/') != [] { TokenFree(v, '/'); }
  }

  datatype Line = NoRule | Rule(key: string, entry: Entry) | BadLine

  /** What populate_grammar makes of one line. */
  function ParseLine(line: string): Line
  {
    match StrTok(line, '=')
    case None => BadLine
    case Some((key, rest)) =>
      match StrTok(rest, ';')
      case None => NoRule
      case Some((value, _)) =>
        match ParseValue(Trim(value))
        case None => BadLine
        case Some(entry) => Rule(Trim(key), entry)
  }

  /* --- Which lines hold a rule --- */

  /** Behind the key, and the equals sign if there is one, stand only semicolons, or nothing. */
  ghost predicate RuleFree(line: string)
  {
    exists key, rest :: FirstWord(line, '=', key, rest) && Only(rest, ';')
  }

  /** The value is the text behind the key up to the next semicolon. */
  ghost predicate Keyed(line: string, key: string, value: string)
  {
    exists rest, comment :: FirstWord(line, '=', key, rest) && FirstWord(rest, ';', value, comment)
  }

  /** The two strtok calls, in those terms. */
  lemma LineCuts(line: string)
    ensures StrTok(line, '=') == None <==> Only(line, '=')
    ensures RuleFree(line) <==> StrTok(line, '=').Some? && StrTok(StrTok(line, '=').value.1, ';') == None
    ensures forall key, value :: Keyed(line, key, value) <==>
              && StrTok(line, '=').Some? && key == StrTok(line, '=').value.0
              && var rest := StrTok(line, '=').value.1;
                 StrTok(rest, ';').Some? && value == StrTok(rest, ';').value.0
  {
    hide StrTok, FirstWord, Only;
    forall key, rest ensures StrTok(line, '=') == Some((key, rest)) <==> FirstWord(line, '=', key, rest) {
      StrTokExactly(line, '=', key, rest);
    }
    StrTokExactly(line, '=', "", "");
    if StrTok(line, '=').Some? {
      var behind := StrTok(line, '=').value.1;
      forall value, comment
        ensures StrTok(behind, ';') == Some((value, comment)) <==> FirstWord(behind, ';', value, comment)
      {
        StrTokExactly(behind, ';', value, comment);
      }
      StrTokExactly(behind, ';', "", "");
    }
  }

  /** Every line: it holds no rule; or it makes the source compare with a null pointer, being all
      equals signs or having a value of only slashes and blanks; or its rule is that of its key and
      value. */
  lemma LineExactly(line: string)
    ensures ParseLine(line) == NoRule <==> RuleFree(line)
    ensures ParseLine(line) == BadLine <==>
              Only(line, '=') || exists key, value :: Keyed(line, key, value) && Only(Trim(value), '/')
    ensures forall k, e :: ParseLine(line) == Line.Rule(k, e) <==>
              exists key, value ::
                Keyed(line, key, value) && k == Trim(key) && ParseValue(Trim(value)) == Some(e)
  {
    hide StrTok, Trim, ParseValue, RuleFree, Keyed, Only;
    LineCuts(line);
    forall value ensures ParseValue(Trim(value)) == None <==> Only(Trim(value), '/') { ValueExactly(Trim(value)); }
    if StrTok(line, '=').Some? {
      var (key, rest) := StrTok(line, '=').value;
      if StrTok(rest, ';').Some? { assert Keyed(line, key, StrTok(rest, ';').value.0); }
    }
  }

  /** Blank lines and comment lines without an equals sign, say, hold no rule. */
  lemma NoEqualsNoRule(line: string)
    requires line != "" && '=' !in line
    ensures RuleFree(line) && ParseLine(line) == NoRule
  {
    assert Only("", '=') && Only("", ';') && line == "" + line;
    assert FirstWord(line, '=', line, "");
    LineExactly(line);
  }

  /** A heap copy of a string, as the source's calloc and strcpy make it. */
  method CopyString(s: string) returns (buffer: array<char>)
    ensures fresh(buffer) && Holds(buffer[..], s)
  {
    var n := |s| + 1;
    buffer := new char[n](i requires 0 <= i < n => if i < |s| then s[i] else '\0');
    assert buffer[..|s|] == s;
  }

  /** A trimmed copy, by way of the buffer. */
  method TrimmedCopy(s: string) returns (t: string)
    ensures t == Trim(s)
  {
    var buffer := CopyString(s);
    TrimString(buffer, s);
    t := buffer[..StringLength(buffer, Trim(s))];
  }

  /** strlen, for a buffer known to hold this string. */
  function StringLength(buffer: array<char>, s: string): (n: nat)
    requires Holds(buffer[..], s)
    reads buffer
    ensures n <= buffer.Length && buffer[..n] == s
  {
    assert buffer[..][..|s|] == buffer[..|s|];
    |s|
  }

  /** parse_value's strtok loop: the list of alternatives grows by one trimmed piece at a time. */
  method ParseValueText(v: string) returns (entry: Option<Entry>)
    ensures entry == ParseValue(v)
  {
    hide StrTok, Trim;
    var piece := StrTok(v, '/');
    if piece == None { return None; }
    ghost var pieces := Tokens(v, '/');
    assert pieces[0] == piece.value.0;
    if piece.value.0 == v { return Some(Text(v)); }
    var alternatives: seq<string> := [];
    var left := v;
    while piece != None
      invariant piece == StrTok(left, '/')
      invariant |alternatives| <= |pieces| && Tokens(left, '/') == pieces[|alternatives|..]
      invariant alternatives == TrimAll(pieces)[..|alternatives|]
      decreases |left|
    {
      var (word, rest) := piece.value;
      ghost var i := |alternatives|;
      assert pieces[i..][0] == word && pieces[i..][1..] == pieces[i + 1..];
      var trimmed := TrimmedCopy(word);
      alternatives := alternatives + [trimmed];
      left := rest;
      piece := StrTok(left, '/');
    }
    assert |alternatives| == |pieces|;
    assert TrimAll(pieces)[..|pieces|] == TrimAll(pieces);
    entry := Some(Choice(alternatives));
  }

  /** The source's work on one line, with its heap copies. */
  method ParseLineText(line: string) returns (r: Line)
    ensures r == ParseLine(line)
    ensures r == NoRule <==> RuleFree(line)
    ensures r == BadLine <==>
              Only(line, '=') || exists key, value :: Keyed(line, key, value) && Only(Trim(value), '/')
    ensures r.Rule? ==>
              exists key, value ::
                Keyed(line, key, value) && r.key == Trim(key) && Some(r.entry) == ParseValue(Trim(value))
  {
    LineExactly(line);
    hide Keyed, RuleFree;
    var key := StrTok(line, '=');
    if key == None { return BadLine; }
    var value := StrTok(key.value.1, ';');
    var name := TrimmedCopy(key.value.0);
    if value == None { return NoRule; }
    var trimmed := TrimmedCopy(value.value.0);
    var entry := ParseValueText(trimmed);
    if entry == None { return BadLine; }
    r := Rule(name, entry.value);
  }

  /** The table after a file's lines; None when one of them is bad. */
  function Populated(t: Table, lines: seq<string>): Option<Table>
    decreases |lines|
  {
    if lines == [] then Some(t)
    else match ParseLine(lines[0])
      case NoRule => Populated(t, lines[1..])
      case Rule(key, entry) => Populated(t[key := entry], lines[1..])
      case BadLine => None
  }

  /** A file is loaded to its end exactly when no line of it is bad. */
  lemma {:induction false} PopulatedExactly(t: Table, lines: seq<string>)
    ensures Populated(t, lines) == None <==> exists i | 0 <= i < |lines| :: ParseLine(lines[i]) == BadLine
    decreases |lines|
  {
    hide ParseLine;
    if lines != [] {
      var r, rest := ParseLine(lines[0]), lines[1..];
      PopulatedExactly(if r.Rule? then t[r.key := r.entry] else t, rest);
      if i :| 0 <= i < |rest| && ParseLine(rest[i]) == BadLine { assert lines[i + 1] == rest[i]; }
      if i :| 0 < i < |lines| && ParseLine(lines[i]) == BadLine { assert lines[i] == rest[i - 1]; }
    }
  }

  method PopulateGrammar(grammar: Grammar, lines: seq<string>) returns (ok: bool)
    requires grammar.Valid()
    modifies grammar
    ensures grammar.Valid()
    ensures ok <==> Populated(old(grammar.table), lines).Some?
    ensures ok <==> forall i | 0 <= i < |lines| :: ParseLine(lines[i]) != BadLine
    ensures ok ==> grammar.table == Populated(old(grammar.table), lines).value
  {
    ghost var all := Populated(grammar.table, lines);
    PopulatedExactly(grammar.table, lines);
    assert lines[0..] == lines;
    for i := 0 to |lines|
      invariant grammar.Valid() && all == Populated(grammar.table, lines[i..])
    {
      assert lines[i..][1..] == lines[i + 1..];
      var r := ParseLineText(lines[i]);
      match r
      case NoRule =>
      case Rule(key, entry) => var _ := grammar.Insert(key, Some(entry));
      case BadLine => return false;
    }
    ok := true;
  }

  /* --- Writing rules --- */

  /** Text that can stand between the delimiters of a rule. */
  predicate Part(s: string) { s != "" && Trimmed(s) && '/' !in s && ';' !in s }

  function Alternatives(parts: seq<string>): string
    requires parts != []
  {
    if |parts| == 1 then parts[0] else parts[0] + " / " + Alternatives(parts[1..])
  }

  /** A rule on a line, with any blanks around the key and the value, and an optional comment. */
  function RuleLine(lead: string, key: string, gap: string, pad: string, parts: seq<string>, end: string,
      comment: string): string
    requires parts != []
  {
    lead + key + gap + ['='] + (pad + Alternatives(parts) + end + comment)
  }

  lemma {:induction false} AlternativesClean(parts: seq<string>)
    requires parts != [] && forall p | p in parts :: Part(p)
    ensures var a := Alternatives(parts); a != "" && Trimmed(a) && ';' !in a && (|parts| == 1 <==> '/' !in a)
  {
    if |parts| > 1 {
      assert forall p | p in parts[1..] :: p in parts;
      AlternativesClean(parts[1..]);
      assert parts[0] in parts && " / "[1] == '/';
      var a := Alternatives(parts);
      assert a[|parts[0]| + 1] == '/';
    } else {
      assert parts[0] in parts;
    }
  }

  lemma {:induction false} AlternativesTokens(lead: string, parts: seq<string>)
    requires parts != [] && (forall p | p in parts :: Part(p)) && (lead == "" || lead == " ")
    ensures var ws := Tokens(lead + Alternatives(parts), '/');
            |ws| == |parts| && forall i | 0 <= i < |parts| :: Trim(ws[i]) == parts[i]
    decreases |parts|
  {
    hide Tokens, Trim, Part;
    var p := parts[0];
    assert p in parts;
    if |parts| == 1 {
      OneToken(lead, p);
    } else {
      var rest := Alternatives(parts[1..]);
      assert lead + Alternatives(parts) == lead + p + " / " + rest;
      FirstToken(lead, p, rest);
      assert forall q | q in parts[1..] :: q in parts;
      AlternativesTokens(" ", parts[1..]);
      assert forall i | 1 <= i < |parts| :: parts[i] == parts[1..][i - 1];
    }
  }

  lemma OneToken(lead: string, p: string)
    requires Part(p) && (lead == "" || lead == " ")
    ensures Tokens(lead + p, '/') == [lead + p] && Trim(lead + p) == p
  {
    TokensWord(lead + p, '/');
    TrimOf(lead, p, "");
    assert lead + p + "" == lead + p;
  }

  lemma FirstToken(lead: string, p: string, rest: string)
    requires Part(p) && (lead == "" || lead == " ")
    ensures Tokens(lead + p + " / " + rest, '/') == [lead + p + " "] + Tokens(" " + rest, '/')
    ensures Trim(lead + p + " ") == p
  {
    assert lead + p + " / " + rest == (lead + p + " ") + ['/'] + (" " + rest);
    TokensCons(lead + p + " ", " " + rest, '/');
    TrimOf(lead, p, " ");
  }

  /** The entry a list of alternatives should become. */
  function EntryOf(parts: seq<string>): Entry
    requires parts != []
  {
    if |parts| == 1 then Text(parts[0]) else Choice(parts)
  }

  lemma ValueRoundTrip(parts: seq<string>)
    requires parts != [] && forall p | p in parts :: Part(p)
    ensures ParseValue(Alternatives(parts)) == Some(EntryOf(parts))
  {
    var v := Alternatives(parts);
    AlternativesClean(parts);
    AlternativesTokens("", parts);
    assert "" + v == v;
    if |parts| == 1 {
      TokensWord(v, '/');
    } else {
      assert TrimAll(Tokens(v, '/')) == parts;
      TokenFree(v, '/');
    }
  }

  /** Tokens contain no delimiter. */
  lemma TokenFree(s: string, d: char)
    requires Tokens(s, d) != []
    ensures d !in Tokens(s, d)[0]
  {
  }

  /** The line parser inverts writing a rule: STRING for one alternative, STRING_ARRAY for more,
      whatever blanks and comment stand around them. */
  lemma LineRoundTrip(lead: string, key: string, gap: string, pad: string, parts: seq<string>, end: string,
      comment: string)
    requires key != "" && Trimmed(key) && '=' !in key
    requires parts != [] && forall p | p in parts :: Part(p)
    requires AllBlank(lead) && AllBlank(gap) && AllBlank(pad) && AllBlank(end) && (comment == "" || comment[0] == ';')
    ensures ParseLine(RuleLine(lead, key, gap, pad, parts, end, comment)) == Line.Rule(key, EntryOf(parts))
  {
    var name, body := lead + key + gap, Alternatives(parts);
    AlternativesClean(parts);
    assert '=' !in name && name != "";
    StrTokWord(name, pad + body + end + comment, '=');
    var value := pad + body + end;
    assert ';' !in value && value != "";
    assert value + comment == pad + body + end + comment;
    ValueToken(value, comment);
    TrimOf(lead, key, gap);
    TrimOf(pad, body, end);
    ValueRoundTrip(parts);
  }

  lemma ValueToken(value: string, comment: string)
    requires value != "" && ';' !in value && (comment == "" || comment[0] == ';')
    ensures StrTok(value + comment, ';').Some? && StrTok(value + comment, ';').value.0 == value
  {
    SpanOf(value, comment, ';');
    assert (value + comment)[..|value|] == value;
    assert (value + comment)[0] == value[0];
  }

  /* --- Whole files --- */

  function Texts(alts: seq<seq<Piece>>): (parts: seq<string>)
    requires ValidRule(alts)
    ensures |parts| == |alts|
  {
    seq(|alts|, i requires 0 <= i < |alts| => AlternativeText(alts[i]))
  }

  /** The line states this rule, in some layout. */
  ghost predicate States(line: string, key: string, alts: seq<seq<Piece>>)
  {
    && ValidRule(alts)
    && exists gap, pad, end, comment ::
        && AllBlank(gap) && AllBlank(pad) && AllBlank(end) && (comment == "" || comment[0] == ';')
        && line == RuleLine("", key, gap, pad, Texts(alts), end, comment)
  }

  /** The lines state these rules and nothing else, in any order and with any lines between them
      that hold no rule. */
  ghost predicate Lists(lines: seq<string>, rules: Rules)
  {
    && (forall i | 0 <= i < |lines| ::
          RuleFree(lines[i]) || exists n :: n in rules && States(lines[i], n, rules[n]))
    && (forall n | n in rules :: exists i :: 0 <= i < |lines| && States(lines[i], n, rules[n]))
  }

  lemma CleanIsPart(s: string)
    requires Clean(s)
    ensures Part(s)
  {
  }

  /** A line that states a tidy rule loads as its entry. */
  lemma LoadedLine(line: string, key: string, alts: seq<seq<Piece>>)
    requires Key(key) && TidyRule(alts) && States(line, key, alts)
    ensures ParseLine(line) == Line.Rule(key, MakeEntry(alts))
  {
    hide AlternativeText, Clean, TidyAll;
    var gap, pad, end, comment :|
      && AllBlank(gap) && AllBlank(pad) && AllBlank(end) && (comment == "" || comment[0] == ';')
      && line == RuleLine("", key, gap, pad, Texts(alts), end, comment);
    var parts := Texts(alts);
    forall i | 0 <= i < |alts| ensures Part(parts[i]) {
      AlternativeClean(alts[i]);
      CleanIsPart(parts[i]);
    }
    LineRoundTrip("", key, gap, pad, parts, end, comment);
    if |alts| > 1 { assert MakeEntry(alts).alternatives == parts; }
  }

  /** Every line is no rule, or one of these. */
  predicate Loads(lines: seq<string>, t: Table)
  {
    forall i | 0 <= i < |lines| ::
      var r := ParseLine(lines[i]); r == NoRule || (r.Rule? && r.key in t && r.entry == t[r.key])
  }

  predicate Mentioned(lines: seq<string>, n: string)
  {
    exists i | 0 <= i < |lines| :: ParseLine(lines[i]).Rule? && ParseLine(lines[i]).key == n
  }

  lemma MentionedStep(lines: seq<string>, n: string)
    requires lines != []
    ensures Mentioned(lines, n) <==>
              (ParseLine(lines[0]).Rule? && ParseLine(lines[0]).key == n) || Mentioned(lines[1..], n)
  {
    hide ParseLine;
    if Mentioned(lines[1..], n) {
      var i :| 0 <= i < |lines[1..]| && ParseLine(lines[1..][i]).Rule? && ParseLine(lines[1..][i]).key == n;
      assert lines[i + 1] == lines[1..][i];
    }
    if Mentioned(lines, n) {
      var i :| 0 <= i < |lines| && ParseLine(lines[i]).Rule? && ParseLine(lines[i]).key == n;
      if i > 0 { assert lines[i] == lines[1..][i - 1]; }
    }
  }

  /** Then the table is what it was, overwritten by the rules the lines mention. */
  lemma {:induction false} LoadsAll(before: Table, lines: seq<string>, t: Table)
    requires Loads(lines, t)
    ensures Populated(before, lines).Some?
    ensures var after := Populated(before, lines).value;
            forall n :: (n in after <==> n in before || Mentioned(lines, n))
              && (n in after ==> after[n] == if Mentioned(lines, n) && n in t then t[n] else before[n])
    decreases |lines|
  {
    hide ParseLine, Mentioned;
    if lines == [] { NothingMentioned(); return; }
    forall n ensures Mentioned(lines, n) <==>
        (ParseLine(lines[0]).Rule? && ParseLine(lines[0]).key == n) || Mentioned(lines[1..], n) {
      MentionedStep(lines, n);
    }
    assert Loads(lines[1..], t);
    match ParseLine(lines[0])
    case NoRule => LoadsAll(before, lines[1..], t);
    case Rule(key, entry) => LoadsAll(before[key := entry], lines[1..], t);
  }

  lemma NothingMentioned()
    ensures forall n :: !Mentioned([], n)
  {
  }

  /** A file that lists tidy rules loads as their table. */
  lemma FileLoads(lines: seq<string>, rules: Rules)
    requires TidyRules(rules) && Lists(lines, rules)
    ensures Populated(map[], lines) == Some(Load(rules))
  {
    hide ParseLine, RuleFree, Keyed, States, Key, TidyRule, MakeEntry, Mentioned;
    var t := Load(rules);
    forall i | 0 <= i < |lines|
      ensures var r := ParseLine(lines[i]); r == NoRule || (r.Rule? && r.key in t && r.entry == t[r.key])
    {
      LineExactly(lines[i]);
      if !RuleFree(lines[i]) {
        var n :| n in rules && States(lines[i], n, rules[n]);
        LoadedLine(lines[i], n, rules[n]);
      }
    }
    LoadsAll(map[], lines, t);
    forall n | n in rules ensures Mentioned(lines, n) {
      var i :| 0 <= i < |lines| && States(lines[i], n, rules[n]);
      LoadedLine(lines[i], n, rules[n]);
      Mention(lines, n, i);
    }
    forall n | Mentioned(lines, n) ensures n in t {
      MentionedIn(lines, t, n);
    }
    assert Populated(map[], lines).value == t;
  }

  lemma Mention(lines: seq<string>, n: string, i: nat)
    requires i < |lines| && ParseLine(lines[i]).Rule? && ParseLine(lines[i]).key == n
    ensures Mentioned(lines, n)
  {
  }

  lemma MentionedIn(lines: seq<string>, t: Table, n: string)
    requires Loads(lines, t) && Mentioned(lines, n)
    ensures n in t
  {
  }

  /** There is such a file for any tidy rules. */
  lemma {:induction false} Written(rules: Rules) returns (lines: seq<string>)
    requires TidyRules(rules)
    ensures Lists(lines, rules)
    decreases |rules|
  {
    hide Key, RuleLine, RuleFree, States, TidyRule;
    lines := [];
    if rules != map[] {
      var n :| n in rules;
      var others := rules - {n};
      assert others.Keys == rules.Keys - {n};
      var rest := Written(others);
      TidyRuleValid(rules[n]);
      var line := RuleLine("", n, "", "", Texts(rules[n]), "", "");
      StatesPlain(n, rules[n]);
      lines := [line] + rest;
      OneMoreRule(rest, others, line, n, rules);
    }
  }

  lemma OneMoreRule(rest: seq<string>, others: Rules, line: string, n: string, rules: Rules)
    requires Lists(rest, others) && n in rules && others == rules - {n} && States(line, n, rules[n])
    ensures Lists([line] + rest, rules)
  {
    hide RuleFree, States;
    var lines := [line] + rest;
    forall i | 0 <= i < |lines|
      ensures RuleFree(lines[i]) || exists m :: m in rules && States(lines[i], m, rules[m])
    {
      if i > 0 && !RuleFree(rest[i - 1]) {
        var m :| m in others && States(rest[i - 1], m, others[m]);
        assert m in rules;
      }
    }
    forall m | m in rules ensures exists i :: 0 <= i < |lines| && States(lines[i], m, rules[m]) {
      if m == n {
        assert States(lines[0], m, rules[m]);
      } else {
        var i :| 0 <= i < |rest| && States(rest[i], m, others[m]);
        assert lines[i + 1] == rest[i];
      }
    }
  }

  lemma StatesPlain(n: string, alts: seq<seq<Piece>>)
    requires ValidRule(alts)
    ensures States(RuleLine("", n, "", "", Texts(alts), "", ""), n, alts)
  {
    assert AllBlank("");
  }

  /** The last rule for a key is the one that stays; nothing else is touched. */
  lemma {:induction false} LastRuleStays(t: Table, lines: seq<string>, line: string, key: string, entry: Entry)
    requires Populated(t, lines).Some? && ParseLine(line) == Line.Rule(key, entry)
    ensures Populated(t, lines + [line]) == Some(Populated(t, lines).value[key := entry])
    decreases |lines|
  {
    hide ParseLine;
    var all := lines + [line];
    if lines == [] {
      assert all[0] == line && all[1..] == [];
    } else {
      assert all[0] == lines[0] && all[1..] == lines[1..] + [line];
      var r := ParseLine(lines[0]);
      LastRuleStays(if r.Rule? then t[r.key := r.entry] else t, lines[1..], line, key, entry);
    }
  }

  lemma {:induction false} PopulatedAppend(t: Table, first: seq<string>, second: seq<string>)
    requires Populated(t, first + second).Some?
    ensures Populated(t, first).Some?
    ensures Populated(Populated(t, first).value, second) == Populated(t, first + second)
    decreases |first|
  {
    if first == [] {
      assert first + second == second;
    } else {
      assert (first + second)[1..] == first[1..] + second;
      var r := ParseLine(first[0]);
      if r == NoRule { PopulatedAppend(t, first[1..], second); }
      if r.Rule? { PopulatedAppend(t[r.key := r.entry], first[1..], second); }
    }
  }

  /** generate_grammar on abnf/grammar-connection. */
  lemma ConnectionLoads(lines: seq<string>)
    requires Lists(lines, CONNECTION)
    ensures Populated(map[], lines) == Some(Load(CONNECTION))
  {
    hide CONNECTION;
    ConnectionTidy();
    FileLoads(lines, CONNECTION);
  }

  /** grammar_init: abnf/grammar-spec, then abnf/grammar-abnf into the same table. */
  lemma ProtocolLoads(spec: seq<string>, core: seq<string>)
    requires Lists(spec + core, PROTOCOL)
    ensures Populated(map[], spec).Some?
    ensures Populated(Populated(map[], spec).value, core) == Some(Load(PROTOCOL))
  {
    hide PROTOCOL;
    ProtocolTidy();
    FileLoads(spec + core, PROTOCOL);
    PopulatedAppend(map[], spec, core);
  }

  /** From the lines of the three files to the environment of the builders. */
  lemma FilesGiveBase(connection: seq<string>, spec: seq<string>, core: seq<string>, level: Level)
    requires Lists(connection, CONNECTION) && Lists(spec + core, PROTOCOL)
    ensures Populated(map[], connection).Some? && Populated(map[], spec).Some?
    ensures Populated(Populated(map[], spec).value, core).Some?
    ensures var c, p := Populated(map[], connection).value, Populated(Populated(map[], spec).value, core).value;
            [Installed(c, p, level), p] == BaseChain(level)
  {
    ConnectionLoads(connection);
    ProtocolLoads(spec, core);
  }
}
