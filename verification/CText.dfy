/** The C string library calls the sources lean on, as functions on strings without NUL. */
module CText {

  datatype Option<+T> = None | Some(value: T)

  function Count(s: string, c: char): (n: nat)
    ensures n <= |s|
  {
    if s == "" then 0 else (if s[0] == c then 1 else 0) + Count(s[1..], c)
  }

  /** Length of the longest prefix free of `d` (strcspn). */
  function Span(s: string, d: char): (k: nat)
    ensures k <= |s| && d !in s[..k] && (k < |s| ==> s[k] == d)
  {
    if s == "" || s[0] == d then 0 else 1 + Span(s[1..], d)
  }

  /** One strtok call on the text that is left: leading delimiters are skipped, then a token is
      taken up to the next delimiter, which is consumed. */
  function StrTok(s: string, d: char): (r: Option<(string, string)>)
    ensures r.Some? ==> r.value.0 != "" && d !in r.value.0 && |r.value.1| < |s|
  {
    if s == "" then None
    else if s[0] == d then StrTok(s[1..], d)
    else var k := Span(s, d); Some((s[..k], if k < |s| then s[k + 1..] else ""))
  }

  /** All tokens, as repeated strtok calls deliver them. */
  function Tokens(s: string, d: char): seq<string>
    decreases |s|
  {
    match StrTok(s, d)
    case None => []
    case Some((word, rest)) => [word] + Tokens(rest, d)
  }

  predicate Word(w: string, d: char) { w != "" && d !in w }

  lemma {:induction false} SpanOf(w: string, rest: string, d: char)
    requires d !in w && (rest == "" || rest[0] == d)
    ensures Span(w + rest, d) == |w|
  {
    if w == "" {
      assert w + rest == rest;
    } else {
      assert (w + rest)[1..] == w[1..] + rest;
      SpanOf(w[1..], rest, d);
    }
  }

  lemma StrTokWord(w: string, rest: string, d: char)
    requires Word(w, d)
    ensures StrTok(w + [d] + rest, d) == Some((w, rest))
    ensures StrTok(w, d) == Some((w, ""))
  {
    var s := w + [d] + rest;
    assert s == w + ([d] + rest);
    SpanOf(w, [d] + rest, d);
    assert s[..|w|] == w && s[|w| + 1..] == rest;
    SpanOf(w, "", d);
    assert w + "" == w && w[..|w|] == w;
  }

  /* --- What strtok takes, in terms of the text --- */

  predicate Only(s: string, d: char) { forall i | 0 <= i < |s| :: s[i] == d }

  /** The word is the first stretch of other characters: before it only delimiters, behind it a
      delimiter and the rest, or nothing. */
  ghost predicate FirstWord(s: string, d: char, word: string, rest: string)
  {
    && Word(word, d)
    && exists lead ::
         Only(lead, d) && (s == lead + (word + [d] + rest) || (rest == "" && s == lead + word))
  }

  lemma {:induction false} StrTokLead(lead: string, s: string, d: char)
    requires Only(lead, d)
    ensures StrTok(lead + s, d) == StrTok(s, d)
  {
    if lead == "" {
      assert lead + s == s;
    } else {
      assert (lead + s)[1..] == lead[1..] + s;
      StrTokLead(lead[1..], s, d);
    }
  }

  lemma WordLater(s: string, d: char, word: string, rest: string)
    requires FirstWord(s, d, word, rest)
    ensures FirstWord([d] + s, d, word, rest)
  {
    var lead :| Only(lead, d) && (s == lead + (word + [d] + rest) || (rest == "" && s == lead + word));
    assert [d] + s == ([d] + lead) + (word + [d] + rest) || (rest == "" && [d] + s == ([d] + lead) + word);
    assert Only([d] + lead, d);
  }

  lemma WordNow(s: string, d: char)
    requires s != "" && s[0] != d
    ensures var k := Span(s, d); FirstWord(s, d, s[..k], if k < |s| then s[k + 1..] else "")
  {
    var k := Span(s, d);
    assert Only("", d) && Word(s[..k], d);
    if k < |s| { assert s == "" + (s[..k] + [d] + s[k + 1..]); } else { assert s == "" + s[..k]; }
  }

  lemma {:induction false} StrTokFinds(s: string, d: char)
    ensures StrTok(s, d) == None <==> Only(s, d)
    ensures StrTok(s, d).Some? ==> FirstWord(s, d, StrTok(s, d).value.0, StrTok(s, d).value.1)
  {
    hide FirstWord;
    if s != "" && s[0] == d {
      var t := s[1..];
      StrTokFinds(t, d);
      assert s == [d] + t;
      if StrTok(t, d).Some? {
        WordLater(t, d, StrTok(t, d).value.0, StrTok(t, d).value.1);
        assert !Only(t, d) && !Only(s, d) by { OnlyLater(t, d); }
      } else {
        OnlyLater(t, d);
      }
    } else if s != "" {
      WordNow(s, d);
    }
  }

  lemma OnlyLater(s: string, d: char)
    ensures Only([d] + s, d) <==> Only(s, d)
  {
    assert forall k | 0 <= k < |s| :: s[k] == ([d] + s)[k + 1];
  }

  /** strtok takes exactly that word, and leaves that rest. */
  lemma StrTokExactly(s: string, d: char, word: string, rest: string)
    ensures StrTok(s, d) == Some((word, rest)) <==> FirstWord(s, d, word, rest)
    ensures StrTok(s, d) == None <==> Only(s, d)
  {
    StrTokFinds(s, d);
    if FirstWord(s, d, word, rest) {
      var lead :| Only(lead, d) && (s == lead + (word + [d] + rest) || (rest == "" && s == lead + word));
      StrTokWord(word, rest, d);
      if s == lead + word { StrTokLead(lead, word, d); }
      if s == lead + (word + [d] + rest) { StrTokLead(lead, word + [d] + rest, d); }
    }
  }

  /** So the tokens of any text: none if it holds nothing but delimiters, otherwise its first word
      and the tokens of the rest. */
  lemma TokensExactly(s: string, d: char)
    ensures Tokens(s, d) == [] <==> Only(s, d)
    ensures forall word, rest | FirstWord(s, d, word, rest) :: Tokens(s, d) == [word] + Tokens(rest, d)
  {
    hide FirstWord;
    StrTokFinds(s, d);
    forall word, rest | FirstWord(s, d, word, rest) ensures Tokens(s, d) == [word] + Tokens(rest, d) {
      StrTokExactly(s, d, word, rest);
    }
  }

  lemma TokensWord(w: string, d: char)
    requires Word(w, d)
    ensures Tokens(w, d) == [w]
  {
    StrTokWord(w, "", d);
  }

  lemma TokensCons(w: string, rest: string, d: char)
    requires Word(w, d)
    ensures Tokens(w + [d] + rest, d) == [w] + Tokens(rest, d)
  {
    StrTokWord(w, rest, d);
  }

  /** Tokens never outnumber the delimiters by more than one, so the source's counting loops see
      every token. */
  lemma {:induction false} TokensCount(s: string, d: char)
    ensures |Tokens(s, d)| <= Count(s, d) + 1
    decreases |s|
  {
    if s == "" {
    } else if s[0] == d {
      TokensSkip(s, d);
      TokensCount(s[1..], d);
    } else {
      var k := Span(s, d);
      CountSplit(s, k, d);
      if k < |s| {
        assert s[k..][1..] == s[k + 1..];
        TokensCount(s[k + 1..], d);
      }
    }
  }

  lemma TokensSkip(s: string, d: char)
    requires s != "" && s[0] == d
    ensures Tokens(s, d) == Tokens(s[1..], d)
  {
    assert StrTok(s, d) == StrTok(s[1..], d);
  }

  lemma {:induction false} CountSplit(s: string, k: nat, c: char)
    requires k <= |s|
    ensures Count(s, c) == Count(s[..k], c) + Count(s[k..], c)
  {
    if k > 0 {
      assert s[..k][1..] == s[1..][..k - 1] && s[k..] == s[1..][k - 1..];
      CountSplit(s[1..], k - 1, c);
    }
  }

  lemma {:induction false} CountNone(s: string, c: char)
    requires c !in s
    ensures Count(s, c) == 0
  {
    if s != "" { CountNone(s[1..], c); }
  }

  /** Words joined by a delimiter. */
  function Join(ws: seq<string>, d: char): string
  {
    if ws == [] then "" else if |ws| == 1 then ws[0] else ws[0] + [d] + Join(ws[1..], d)
  }

  /** strtok inverts joining: tokenising joined words gives the words back. */
  lemma {:induction false} TokensOfJoin(ws: seq<string>, d: char)
    requires forall w | w in ws :: Word(w, d)
    ensures Tokens(Join(ws, d), d) == ws
    ensures ws != [] ==> Count(Join(ws, d), d) == |ws| - 1
  {
    if ws == [] {
    } else if |ws| == 1 {
      TokensWord(ws[0], d);
      CountNone(ws[0], d);
    } else {
      TokensCons(ws[0], Join(ws[1..], d), d);
      TokensOfJoin(ws[1..], d);
      var j := Join(ws, d);
      CountSplit(j, |ws[0]|, d);
      CountNone(ws[0], d);
      assert j[..|ws[0]|] == ws[0] && j[|ws[0]|..] == [d] + Join(ws[1..], d);
      assert j[|ws[0]|..][1..] == Join(ws[1..], d);
    }
  }
}
