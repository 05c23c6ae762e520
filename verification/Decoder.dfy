/** decode_rule and its helpers (grammar/packet-generator.c) as a function of the numbers rand()
    will return, and its agreement with the declarative language of module Language.

    `fuel` is the number of stack frames decode_rule may still push; `Tape` holds the results of
    the coming rand() calls. */
module Decoder {
  import opened Octets
  import opened Abnf
  import opened Language

  type Tape = seq<nat>

  datatype Failure =
    | OutOfNumbers   // the run needs more rand() results than the tape holds
    | StackOverflow  // the run needs more stack frames than it was given
    | Crash          // the run reads through NULL, divides by zero, or meets text outside the notation

  datatype Outcome = Ok(octets: seq<byte>, rest: Tape) | Fail(why: Failure)

  function Prepend(b: seq<byte>, r: Outcome): Outcome
  {
    match r case Ok(d, rest) => Ok(b + d, rest) case Fail(_) => r
  }

  function DecodeElement(c: Chain, e: Element, t: Tape, fuel: nat): Outcome
    decreases fuel, 1, e, 0
  {
    match e
    case Rule(name) => DecodeRule(c, name, t, fuel)
    case Literal(octets) => Ok(octets, t)
    case Range(lo, hi) =>
      if t == [] then Fail(OutOfNumbers)
      else if lo == hi then Fail(Crash)
      else Ok(RangeOctets(hi, Draw(lo, hi, t[0])), t[1..])
    case Repeat(min, max, item) =>
      if t == [] then Fail(OutOfNumbers)
      else if BadCount(min, max) then Fail(Crash)
      else DecodeTimes(c, item, DrawCount(min, max, t[0]), t[1..], fuel)
    case Skip => Ok([], t)
    case Malformed => Fail(Crash)
  }

  function DecodeTimes(c: Chain, item: Element, n: nat, t: Tape, fuel: nat): Outcome
    decreases fuel, 1, item, n + 1
  {
    if n == 0 then Ok([], t)
    else match DecodeElement(c, item, t, fuel)
      case Fail(why) => Fail(why)
      case Ok(b, rest) => Prepend(b, DecodeTimes(c, item, n - 1, rest, fuel))
  }

  function DecodeElements(c: Chain, es: seq<Element>, t: Tape, fuel: nat): Outcome
    decreases fuel, 1, es, 0
  {
    if es == [] then Ok([], t)
    else match DecodeElement(c, es[0], t, fuel)
      case Fail(why) => Fail(why)
      case Ok(b, rest) => Prepend(b, DecodeElements(c, es[1..], rest, fuel))
  }

  /** The generators keep the first octet of each decoding of OCTET. */
  function DecodeHeads(c: Chain, n: nat, t: Tape, fuel: nat): Outcome
    decreases fuel, 1, n
  {
    if n == 0 then Ok([], t)
    else match DecodeRule(c, "OCTET", t, fuel)
      case Fail(why) => Fail(why)
      case Ok(b, rest) =>
        if b == [] then Fail(Crash) else Prepend([b[0]], DecodeHeads(c, n - 1, rest, fuel))
  }

  function LengthPrefix(g: Generator, n: nat): seq<byte>
    requires n < REPETITION_INFTY
  {
    match g case ShortString => [n] case LongString => BE(n, 4)
  }

  function DecodeGenerator(c: Chain, g: Generator, t: Tape, fuel: nat): Outcome
    decreases fuel, 2, 0
  {
    if t == [] then Fail(OutOfNumbers)
    else
      var n := t[0] % REPETITION_INFTY;
      Prepend(LengthPrefix(g, n), DecodeHeads(c, n, t[1..], fuel))
  }

  function DecodeEntry(c: Chain, e: Entry, t: Tape, fuel: nat): Outcome
    decreases fuel, 3
  {
    match e
    case Text(text) => DecodeElements(c, Elements(text), t, fuel)
    case Choice(alts) =>
      if alts == [] then Fail(Crash)
      else if t == [] then Fail(OutOfNumbers)
      else DecodeElements(c, Elements(alts[t[0] % |alts|]), t[1..], fuel)
    case Frozen(octets) => Ok(octets, t)
    case Function(g) => DecodeGenerator(c, g, t, fuel)
  }

  function DecodeRule(c: Chain, name: string, t: Tape, fuel: nat): Outcome
    decreases fuel, 0
  {
    match Lookup(c, name)
    case None => Ok([], t)
    case Some(e) => if fuel == 0 then Fail(StackOverflow) else DecodeEntry(c, e, t, fuel - 1)
  }

  /* --- Soundness: whatever is generated is derivable --- */

  lemma {:induction false} ElementSound(c: Chain, e: Element, t: Tape, fuel: nat)
    ensures var r := DecodeElement(c, e, t, fuel); r.Ok? ==> InElement(Stage(c, fuel), e, r.octets)
    decreases fuel, 1, e, 0
  {
    match e
    case Rule(name) =>
      RuleSound(c, name, t, fuel);
      StageIs(c, fuel);
    case Range(lo, hi) =>
      if t != [] && lo != hi { assert RangeAllows(lo, hi, Draw(lo, hi, t[0])); }
    case Repeat(min, max, item) =>
      if t != [] && !BadCount(min, max) {
        var n := DrawCount(min, max, t[0]);
        assert CountAllows(min, max, n);
        TimesSound(c, item, n, t[1..], fuel);
      }
    case _ =>
  }

  lemma {:induction false} TimesSound(c: Chain, item: Element, n: nat, t: Tape, fuel: nat)
    ensures var r := DecodeTimes(c, item, n, t, fuel); r.Ok? ==> InTimes(Stage(c, fuel), item, n, r.octets)
    decreases fuel, 1, item, n + 1
  {
    if n > 0 {
      ElementSound(c, item, t, fuel);
      var r := DecodeElement(c, item, t, fuel);
      if r.Ok? {
        TimesSound(c, item, n - 1, r.rest, fuel);
        var s := DecodeTimes(c, item, n - 1, r.rest, fuel);
        if s.Ok? { JoinTimes(Stage(c, fuel), item, n, r.octets, s.octets); }
      }
    }
  }

  lemma JoinTimes(I: Meaning, item: Element, n: nat, x: seq<byte>, y: seq<byte>)
    requires n > 0 && InElement(I, item, x) && InTimes(I, item, n - 1, y)
    ensures InTimes(I, item, n, x + y)
  {
    assert (x + y)[..|x|] == x && (x + y)[|x|..] == y;
  }

  lemma JoinElements(I: Meaning, es: seq<Element>, x: seq<byte>, y: seq<byte>)
    requires es != [] && InElement(I, es[0], x) && InElements(I, es[1..], y)
    ensures InElements(I, es, x + y)
  {
    assert (x + y)[..|x|] == x && (x + y)[|x|..] == y;
  }

  lemma {:induction false} ElementsSound(c: Chain, es: seq<Element>, t: Tape, fuel: nat)
    ensures var r := DecodeElements(c, es, t, fuel); r.Ok? ==> InElements(Stage(c, fuel), es, r.octets)
    decreases fuel, 1, es, 0
  {
    if es != [] {
      ElementSound(c, es[0], t, fuel);
      var r := DecodeElement(c, es[0], t, fuel);
      if r.Ok? {
        ElementsSound(c, es[1..], r.rest, fuel);
        var s := DecodeElements(c, es[1..], r.rest, fuel);
        if s.Ok? { JoinElements(Stage(c, fuel), es, r.octets, s.octets); }
      }
    }
  }

  lemma HeadOf(c: Chain, d: seq<byte>, fuel: nat)
    requires InRule(c, "OCTET", d, fuel) && d != []
    ensures OctetHead(Stage(c, fuel), d[0])
  {
    StageIs(c, fuel);
  }

  lemma {:induction false} HeadsSound(c: Chain, n: nat, t: Tape, fuel: nat)
    ensures var r := DecodeHeads(c, n, t, fuel);
            r.Ok? ==> |r.octets| == n && forall i | 0 <= i < n :: OctetHead(Stage(c, fuel), r.octets[i])
    decreases fuel, 1, n
  {
    hide Stage, OctetHead, InRule;
    if n > 0 {
      RuleSound(c, "OCTET", t, fuel);
      var r := DecodeRule(c, "OCTET", t, fuel);
      if r.Ok? && r.octets != [] {
        HeadOf(c, r.octets, fuel);
        HeadsSound(c, n - 1, r.rest, fuel);
      }
    }
  }

  lemma {:induction false} EntrySound(c: Chain, e: Entry, t: Tape, fuel: nat)
    ensures var r := DecodeEntry(c, e, t, fuel); r.Ok? ==> InEntry(Stage(c, fuel), e, r.octets)
    decreases fuel, 3
  {
    match e
    case Text(text) => ElementsSound(c, Elements(text), t, fuel);
    case Choice(alts) =>
      if alts != [] && t != [] { ElementsSound(c, Elements(alts[t[0] % |alts|]), t[1..], fuel); }
    case Frozen(_) =>
    case Function(g) =>
      if t != [] {
        var n := t[0] % REPETITION_INFTY;
        HeadsSound(c, n, t[1..], fuel);
        var r := DecodeGenerator(c, g, t, fuel);
        if r.Ok? { assert LengthPrefix(g, n) == r.octets[..|LengthPrefix(g, n)|]; }
      }
  }

  /** Generator soundness: for every environment, rule, tape and stack, the octets decode_rule
      returns are derivable with no deeper nesting than the stack it used. */
  lemma {:induction false} RuleSound(c: Chain, name: string, t: Tape, fuel: nat)
    ensures var r := DecodeRule(c, name, t, fuel); r.Ok? ==> InRule(c, name, r.octets, fuel)
    decreases fuel, 0
  {
    hide InEntry, DecodeEntry;
    if Lookup(c, name).Some? && fuel > 0 { EntrySound(c, Lookup(c, name).value, t, fuel - 1); }
  }

  lemma DecodedWhole(c: Chain, n: string, tape: Tape, fuel: nat)
    ensures var r := DecodeRule(c, n, tape, fuel); r.Ok? ==> Whole(c)(n, r.octets)
  {
    RuleSound(c, n, tape, fuel);
    var r := DecodeRule(c, n, tape, fuel);
    if r.Ok? { assert InLanguage(c, n, r.octets); }
  }

  /* --- Completeness: whatever is derivable is generated by some tape --- */

  ghost predicate ElementBy(c: Chain, e: Element, b: seq<byte>, h: nat, t: Tape)
  {
    forall s: Tape :: DecodeElement(c, e, t + s, h) == Ok(b, s)
  }

  ghost predicate TimesBy(c: Chain, item: Element, n: nat, b: seq<byte>, h: nat, t: Tape)
  {
    forall s: Tape :: DecodeTimes(c, item, n, t + s, h) == Ok(b, s)
  }

  ghost predicate ElementsBy(c: Chain, es: seq<Element>, b: seq<byte>, h: nat, t: Tape)
  {
    forall s: Tape :: DecodeElements(c, es, t + s, h) == Ok(b, s)
  }

  ghost predicate HeadsBy(c: Chain, n: nat, b: seq<byte>, h: nat, t: Tape)
  {
    forall s: Tape :: DecodeHeads(c, n, t + s, h) == Ok(b, s)
  }

  ghost predicate EntryBy(c: Chain, e: Entry, b: seq<byte>, h: nat, t: Tape)
  {
    forall s: Tape :: DecodeEntry(c, e, t + s, h) == Ok(b, s)
  }

  ghost predicate RuleBy(c: Chain, name: string, b: seq<byte>, h: nat, t: Tape)
  {
    forall s: Tape :: DecodeRule(c, name, t + s, h) == Ok(b, s)
  }

  lemma RangeBy(c: Chain, lo: nat, hi: nat, v: nat, h: nat)
    requires RangeAllows(lo, hi, v)
    ensures ElementBy(c, Range(lo, hi), RangeOctets(hi, v), h, [v - lo])
  {
    hide RangeOctets;
    DrawAllowed(lo, hi, v);
    forall s: Tape ensures DecodeElement(c, Range(lo, hi), [v - lo] + s, h) == Ok(RangeOctets(hi, v), s) {
      assert ([v - lo] + s)[1..] == s;
    }
  }

  lemma RepeatBy(c: Chain, min: nat, max: nat, item: Element, n: nat, b: seq<byte>, h: nat, u: Tape)
    requires CountAllows(min, max, n) && TimesBy(c, item, n, b, h, u)
    ensures ElementBy(c, Repeat(min, max, item), b, h, [n - min] + u)
  {
    DrawCountAllowed(min, max, n);
    forall s: Tape ensures DecodeElement(c, Repeat(min, max, item), [n - min] + u + s, h) == Ok(b, s) {
      assert ([n - min] + u + s)[1..] == u + s;
    }
  }

  lemma {:induction false} ElementTape(c: Chain, e: Element, b: seq<byte>, h: nat) returns (t: Tape)
    requires InElement(Stage(c, h), e, b)
    ensures ElementBy(c, e, b, h, t)
    decreases h, 1, e, 0
  {
    match e
    case Rule(name) =>
      StageIs(c, h);
      t := RuleTape(c, name, b, h);
      assert RuleBy(c, name, b, h, t);
    case Range(lo, hi) =>
      var v: nat :| RangeAllows(lo, hi, v) && b == RangeOctets(hi, v);
      t := [v - lo];
      RangeBy(c, lo, hi, v, h);
    case Repeat(min, max, item) =>
      var n: nat :| CountAllows(min, max, n) && InTimes(Stage(c, h), item, n, b);
      var u := TimesTape(c, item, n, b, h);
      t := [n - min] + u;
      RepeatBy(c, min, max, item, n, b, h, u);
    case Malformed => t := [];
    case _ =>
      t := [];
      assert forall s: Tape :: t + s == s;
  }

  lemma TimesNever(c: Chain, item: Element, b: seq<byte>, h: nat)
    requires InTimes(Stage(c, h), item, 0, b)
    ensures TimesBy(c, item, 0, b, h, [])
  {
    assert forall s: Tape :: [] + s == s;
  }

  lemma TimesJoin(c: Chain, item: Element, n: nat, x: seq<byte>, y: seq<byte>, h: nat, u: Tape, w: Tape)
    requires n > 0 && ElementBy(c, item, x, h, u) && TimesBy(c, item, n - 1, y, h, w)
    ensures TimesBy(c, item, n, x + y, h, u + w)
  {
    forall s: Tape ensures DecodeTimes(c, item, n, u + w + s, h) == Ok(x + y, s) {
      assert u + w + s == u + (w + s);
      assert DecodeElement(c, item, u + (w + s), h) == Ok(x, w + s);
      assert DecodeTimes(c, item, n - 1, w + s, h) == Ok(y, s);
    }
  }

  lemma {:induction false} TimesTape(c: Chain, item: Element, n: nat, b: seq<byte>, h: nat) returns (t: Tape)
    requires InTimes(Stage(c, h), item, n, b)
    ensures TimesBy(c, item, n, b, h, t)
    decreases h, 1, item, n + 1
  {
    hide ElementBy, TimesBy, Stage, InElement, InTimes;
    if n == 0 {
      t := [];
      TimesNever(c, item, b, h);
    } else {
      var k := FirstCopy(Stage(c, h), item, n, b);
      var u := ElementTape(c, item, b[..k], h);
      var w := TimesTape(c, item, n - 1, b[k..], h);
      t := u + w;
      assert b[..k] + b[k..] == b;
      TimesJoin(c, item, n, b[..k], b[k..], h, u, w);
    }
  }

  lemma {:induction false} ElementsTape(c: Chain, es: seq<Element>, b: seq<byte>, h: nat) returns (t: Tape)
    requires InElements(Stage(c, h), es, b)
    ensures ElementsBy(c, es, b, h, t)
    decreases h, 1, es, 0
  {
    if es == [] {
      t := [];
      assert forall s: Tape :: t + s == s;
    } else {
      var k :| 0 <= k <= |b| && InElement(Stage(c, h), es[0], b[..k]) && InElements(Stage(c, h), es[1..], b[k..]);
      var u := ElementTape(c, es[0], b[..k], h);
      var w := ElementsTape(c, es[1..], b[k..], h);
      t := u + w;
      forall s: Tape ensures DecodeElements(c, es, t + s, h) == Ok(b, s) {
        assert t + s == u + (w + s);
        assert b[..k] + b[k..] == b;
      }
    }
  }

  lemma {:induction false} HeadsTape(c: Chain, b: seq<byte>, h: nat) returns (t: Tape)
    requires forall i | 0 <= i < |b| :: OctetHead(Stage(c, h), b[i])
    ensures HeadsBy(c, |b|, b, h, t)
    decreases h, 1, |b|
  {
    if b == [] {
      t := [];
      assert forall s: Tape :: t + s == s;
    } else {
      assert OctetHead(Stage(c, h), b[0]);
      var d: seq<byte> :| d != [] && d[0] == b[0] && Stage(c, h)("OCTET", d);
      StageIs(c, h);
      var u := RuleTape(c, "OCTET", d, h);
      forall i | 0 <= i < |b[1..]| ensures OctetHead(Stage(c, h), b[1..][i]) {
        assert OctetHead(Stage(c, h), b[i + 1]);
      }
      var w := HeadsTape(c, b[1..], h);
      t := u + w;
      forall s: Tape ensures DecodeHeads(c, |b|, t + s, h) == Ok(b, s) {
        assert t + s == u + (w + s);
        assert [b[0]] + b[1..] == b;
      }
    }
  }

  lemma GeneratorBy(c: Chain, g: Generator, w: seq<byte>, h: nat, u: Tape)
    requires |w| < REPETITION_INFTY && HeadsBy(c, |w|, w, h, u)
    ensures EntryBy(c, Function(g), LengthPrefix(g, |w|) + w, h, [|w|] + u)
  {
    hide LengthPrefix, DecodeHeads;
    forall s: Tape ensures DecodeEntry(c, Function(g), [|w|] + u + s, h) == Ok(LengthPrefix(g, |w|) + w, s) {
      var t := [|w|] + u + s;
      assert t[0] == |w| && t[1..] == u + s;
      assert DecodeHeads(c, |w|, u + s, h) == Ok(w, s);
    }
  }

  lemma {:induction false} GeneratorTape(c: Chain, g: Generator, b: seq<byte>, h: nat) returns (t: Tape)
    requires InGenerator(Stage(c, h), g, b)
    ensures EntryBy(c, Function(g), b, h, t)
    decreases h, 2
  {
    hide EntryBy, HeadsBy, OctetHead, Stage;
    var p := if g.ShortString? then 1 else 4;
    var w := b[p..];
    forall i | 0 <= i < |w| ensures OctetHead(Stage(c, h), w[i]) {
      assert OctetHead(Stage(c, h), b[i + p]);
    }
    var u := HeadsTape(c, w, h);
    t := [|w|] + u;
    assert LengthPrefix(g, |w|) == b[..p] && b[..p] + w == b;
    GeneratorBy(c, g, w, h, u);
  }

  lemma ChoicePick(c: Chain, alts: seq<string>, i: nat, t: Tape, h: nat)
    requires i < |alts|
    ensures DecodeEntry(c, Choice(alts), [i] + t, h) == DecodeElements(c, Elements(alts[i]), t, h)
  {
    assert i % |alts| == i;
    assert ([i] + t)[1..] == t;
  }

  lemma {:induction false} ChoiceTape(c: Chain, alts: seq<string>, b: seq<byte>, h: nat) returns (t: Tape)
    requires InEntry(Stage(c, h), Choice(alts), b)
    ensures EntryBy(c, Choice(alts), b, h, t)
    decreases h, 2
  {
    var i: nat :| i < |alts| && InElements(Stage(c, h), Elements(alts[i]), b);
    var u := ElementsTape(c, Elements(alts[i]), b, h);
    t := [i] + u;
    forall s: Tape ensures DecodeEntry(c, Choice(alts), t + s, h) == Ok(b, s) {
      assert t + s == [i] + (u + s);
      ChoicePick(c, alts, i, u + s, h);
      assert DecodeElements(c, Elements(alts[i]), u + s, h) == Ok(b, s);
    }
  }

  lemma {:induction false} EntryTape(c: Chain, e: Entry, b: seq<byte>, h: nat) returns (t: Tape)
    requires InEntry(Stage(c, h), e, b)
    ensures EntryBy(c, e, b, h, t)
    decreases h, 3
  {
    match e
    case Text(text) =>
      t := ElementsTape(c, Elements(text), b, h);
      assert ElementsBy(c, Elements(text), b, h, t);
    case Choice(alts) => t := ChoiceTape(c, alts, b, h);
    case Frozen(_) =>
      t := [];
      assert forall s: Tape :: t + s == s;
    case Function(g) => t := GeneratorTape(c, g, b, h);
  }

  lemma {:induction false} RuleTape(c: Chain, name: string, b: seq<byte>, h: nat) returns (t: Tape)
    requires InRule(c, name, b, h)
    ensures RuleBy(c, name, b, h, t)
    decreases h, 0
  {
    match Lookup(c, name)
    case None =>
      t := [];
      assert forall s: Tape :: t + s == s;
    case Some(e) =>
      t := EntryTape(c, e, b, h - 1);
      assert EntryBy(c, e, b, h - 1, t);
  }

  /** The octet strings decode_rule can produce with `fuel` frames. */
  ghost predicate Generated(c: Chain, name: string, b: seq<byte>, fuel: nat)
  {
    exists t: Tape :: DecodeRule(c, name, t, fuel) == Ok(b, [])
  }

  /** decode_rule generates exactly the derivable octet strings, stack frame by stack frame. */
  lemma GeneratedIffDerivable(c: Chain, name: string, b: seq<byte>, fuel: nat)
    ensures Generated(c, name, b, fuel) <==> InRule(c, name, b, fuel)
  {
    if Generated(c, name, b, fuel) {
      var t: Tape :| DecodeRule(c, name, t, fuel) == Ok(b, []);
      RuleSound(c, name, t, fuel);
    }
    if InRule(c, name, b, fuel) {
      var t := RuleTape(c, name, b, fuel);
      assert RuleBy(c, name, b, fuel, t);
      assert DecodeRule(c, name, t + [], fuel) == Ok(b, []);
    }
  }

  lemma OneElement(c: Chain, e: Element, t: Tape, fuel: nat)
    ensures DecodeElements(c, [e], t, fuel) == DecodeElement(c, e, t, fuel)
  {
    hide DecodeElement;
    var r := DecodeElement(c, e, t, fuel);
    assert [e][1..] == [];
    if r.Ok? {
      assert DecodeElements(c, [], r.rest, fuel) == Ok([], r.rest);
      assert r.octets + [] == r.octets;
    }
  }

  /* --- What a roll decides --- */

  /** n copies, one behind the other. */
  function Copies(b: seq<byte>, n: nat): (r: seq<byte>)
    ensures |r| == n * |b|
  {
    if n == 0 then [] else b + Copies(b, n - 1)
  }

  /** A repetition of fixed octets: C's remainder of the roll decides how many copies there are, also
      when the bounds stand in the wrong order; with no room between them it divides by zero. */
  function Copied(min: nat, max: nat, b: seq<byte>, t: Tape): Outcome
  {
    if t == [] then Fail(OutOfNumbers)
    else if min == max + 1 then Fail(Crash)
    else if min <= max then Ok(Copies(b, min + t[0] % (max - min + 1)), t[1..])
    else Ok(Copies(b, min + t[0] % (min - max - 1)), t[1..])
  }

  lemma {:induction false} TimesCopies(c: Chain, b: seq<byte>, n: nat, t: Tape, fuel: nat)
    ensures DecodeTimes(c, Literal(b), n, t, fuel) == Ok(Copies(b, n), t)
  {
    if n > 0 { TimesCopies(c, b, n - 1, t, fuel); }
  }

  lemma CopiesRolled(c: Chain, min: nat, max: nat, b: seq<byte>, t: Tape, fuel: nat)
    ensures DecodeElement(c, Repeat(min, max, Literal(b)), t, fuel) == Copied(min, max, b, t)
  {
    if t != [] && !BadCount(min, max) { TimesCopies(c, b, DrawCount(min, max, t[0]), t[1..], fuel); }
  }

  /** The same of any item, and of ranges, choices and generators: which number, which alternative
      and which length a roll stands for. */
  lemma RepeatRolls(c: Chain, min: nat, max: nat, item: Element, t: Tape, fuel: nat)
    requires t != [] && min <= max
    ensures DecodeElement(c, Repeat(min, max, item), t, fuel)
         == DecodeTimes(c, item, min + t[0] % (max - min + 1), t[1..], fuel)
  {
  }

  lemma RangeRolls(c: Chain, lo: nat, hi: nat, t: Tape, fuel: nat)
    requires t != []
    ensures var r := DecodeElement(c, Range(lo, hi), t, fuel);
            && (lo == hi ==> r == Fail(Crash))
            && (lo > hi ==> r == Ok(BE(lo + t[0] % (lo - hi), Width(hi)), t[1..]))
            && (lo < hi ==> r == Ok(BE(lo + t[0] % (hi - lo), Width(hi)), t[1..]))
            && (lo < hi && LeadingOctet(hi) >= 2 ==> Value(r.octets) == lo + t[0] % (hi - lo))
  {
    hide Value, LeadingOctet, Width, BE;
    if lo < hi { DrawnInFull(lo, hi, t[0]); }
  }

  lemma ChoiceRolls(c: Chain, alts: seq<string>, t: Tape, fuel: nat)
    requires t != [] && alts != []
    ensures DecodeEntry(c, Choice(alts), t, fuel)
         == DecodeElements(c, Elements(alts[t[0] % |alts|]), t[1..], fuel)
  {
  }

  lemma {:induction false} HeadsLength(c: Chain, n: nat, t: Tape, fuel: nat)
    ensures var r := DecodeHeads(c, n, t, fuel); r.Ok? ==> |r.octets| == n
    decreases n
  {
    hide DecodeRule;
    if n > 0 {
      var r := DecodeRule(c, "OCTET", t, fuel);
      if r.Ok? { HeadsLength(c, n - 1, r.rest, fuel); }
    }
  }

  lemma GeneratorRolls(c: Chain, g: Generator, t: Tape, fuel: nat)
    requires t != []
    ensures var r, lead := DecodeGenerator(c, g, t, fuel), if g == ShortString then 1 else 4;
            r.Ok? ==> |r.octets| == lead + t[0] % 16 && Value(r.octets[..lead]) == t[0] % 16
  {
    hide DecodeHeads, Value;
    var n := t[0] % REPETITION_INFTY;
    HeadsLength(c, n, t[1..], fuel);
    PrefixValue(g, n);
    var r := DecodeHeads(c, n, t[1..], fuel);
    if r.Ok? { assert (LengthPrefix(g, n) + r.octets)[..|LengthPrefix(g, n)|] == LengthPrefix(g, n); }
  }

  lemma PrefixValue(g: Generator, n: nat)
    requires n < REPETITION_INFTY
    ensures |LengthPrefix(g, n)| == (if g == ShortString then 1 else 4) && Value(LengthPrefix(g, n)) == n
  {
    if g == ShortString {
      assert [n][..0] == [];
    } else {
      ValueOfBE(n, 4);
      PowFour();
    }
  }

  /** Where the source reads through a null pointer, or divides by zero. */
  lemma Nulls(c: Chain, g: Generator, t: Tape, fuel: nat)
    ensures DecodeElement(c, Malformed, t, fuel) == Fail(Crash)
    ensures DecodeEntry(c, Choice([]), t, fuel) == Fail(Crash)
    ensures Lookup(c, "OCTET").None? && t != [] && t[0] % 16 > 0 ==> DecodeGenerator(c, g, t, fuel) == Fail(Crash)
  {
    if Lookup(c, "OCTET").None? && t != [] {
      assert DecodeRule(c, "OCTET", t[1..], fuel) == Ok([], t[1..]);
    }
  }
}
