/** When decode_rule ends: a stratification of the rules it can reach bounds its stack, and the
    numbers it asks of rand() are bounded by the text of those rules. */
module Termination {
  import opened Octets
  import opened CText
  import opened Abnf
  import opened Language
  import opened Decoder

  /** Every rule of the set mentions only rules of the set, all of strictly smaller rank. */
  ghost predicate Ranked(c: Chain, names: Names, rank: string -> nat)
  {
    forall n, m | names(n) && Lookup(c, n).Some? && EntryMentions(Lookup(c, n).value, m) ::
      names(m) && rank(m) < rank(n)
  }

  /* --- Text on which the source neither reads through NULL nor divides by zero --- */

  predicate SaneElement(e: Element)
  {
    match e
    case Range(lo, hi) => lo != hi
    case Repeat(min, max, item) => !BadCount(min, max) && SaneElement(item)
    case Malformed => false
    case _ => true
  }

  predicate SaneAll(es: seq<Element>) { forall e | e in es :: SaneElement(e) }

  predicate SaneEntry(e: Entry)
  {
    match e
    case Text(text) => SaneAll(Elements(text))
    case Choice(alts) => alts != [] && forall a | a in alts :: SaneAll(Elements(a))
    case Frozen(_) => true
    case Function(_) => true
  }

  /** OCTET never decodes to nothing, so the generators can take its first octet. */
  ghost predicate OctetFull(c: Chain)
  {
    forall h: nat :: !InRule(c, "OCTET", [], h)
  }

  ghost predicate Sane(c: Chain, names: Names)
  {
    forall n | names(n) && Lookup(c, n).Some? ::
      SaneEntry(Lookup(c, n).value) && (Lookup(c, n).value.Function? ==> OctetFull(c))
  }

  /* --- How many numbers a decoding can ask for --- */

  function MaxCount(min: nat, max: nat): nat
  {
    if min <= max then max else if BadCount(min, max) then 0 else 2 * min - max - 2
  }

  function DrawsElement(c: Chain, e: Element, fuel: nat): nat
    decreases fuel, 1, e
  {
    match e
    case Rule(name) => DrawsRule(c, name, fuel)
    case Range(_, _) => 1
    case Repeat(min, max, item) => 1 + MaxCount(min, max) * DrawsElement(c, item, fuel)
    case _ => 0
  }

  function DrawsAll(c: Chain, es: seq<Element>, fuel: nat): nat
    decreases fuel, 1, es
  {
    if es == [] then 0 else DrawsElement(c, es[0], fuel) + DrawsAll(c, es[1..], fuel)
  }

  function DrawsChoice(c: Chain, alts: seq<string>, fuel: nat): (n: nat)
    ensures forall i | 0 <= i < |alts| :: DrawsAll(c, Elements(alts[i]), fuel) <= n
    decreases fuel, 2, alts
  {
    if alts == [] then 0
    else
      var x, y := DrawsAll(c, Elements(alts[0]), fuel), DrawsChoice(c, alts[1..], fuel);
      if x < y then y else x
  }

  function DrawsEntry(c: Chain, e: Entry, fuel: nat): nat
    decreases fuel, 3
  {
    match e
    case Text(text) => DrawsAll(c, Elements(text), fuel)
    case Choice(alts) => 1 + DrawsChoice(c, alts, fuel)
    case Frozen(_) => 0
    case Function(_) => 1 + REPETITION_INFTY * DrawsRule(c, "OCTET", fuel)
  }

  function DrawsRule(c: Chain, name: string, fuel: nat): nat
    decreases fuel, 0
  {
    match Lookup(c, name)
    case None => 0
    case Some(e) => if fuel == 0 then 0 else DrawsEntry(c, e, fuel - 1)
  }

  /* --- The numbers asked for do not depend on frozen octets --- */

  predicate AlikeEntries(x: Option<Entry>, y: Option<Entry>)
  {
    x == y || (x.Some? && y.Some? && x.value.Frozen? && y.value.Frozen?)
  }

  /** Environments that differ in frozen octets only. */
  ghost predicate Alike(c: Chain, d: Chain) { forall n :: AlikeEntries(Lookup(c, n), Lookup(d, n)) }

  lemma {:induction false} DrawsElementAlike(c: Chain, d: Chain, e: Element, fuel: nat)
    requires Alike(c, d)
    ensures DrawsElement(c, e, fuel) == DrawsElement(d, e, fuel)
    decreases fuel, 1, e
  {
    match e
    case Rule(name) => DrawsRuleAlike(c, d, name, fuel);
    case Repeat(_, _, item) => DrawsElementAlike(c, d, item, fuel);
    case _ =>
  }

  lemma {:induction false} DrawsAllAlike(c: Chain, d: Chain, es: seq<Element>, fuel: nat)
    requires Alike(c, d)
    ensures DrawsAll(c, es, fuel) == DrawsAll(d, es, fuel)
    decreases fuel, 1, es
  {
    if es != [] {
      DrawsElementAlike(c, d, es[0], fuel);
      DrawsAllAlike(c, d, es[1..], fuel);
    }
  }

  lemma {:induction false} DrawsChoiceAlike(c: Chain, d: Chain, alts: seq<string>, fuel: nat)
    requires Alike(c, d)
    ensures DrawsChoice(c, alts, fuel) == DrawsChoice(d, alts, fuel)
    decreases fuel, 2, alts
  {
    if alts != [] {
      DrawsAllAlike(c, d, Elements(alts[0]), fuel);
      DrawsChoiceAlike(c, d, alts[1..], fuel);
    }
  }

  lemma {:induction false} DrawsRuleAlike(c: Chain, d: Chain, name: string, fuel: nat)
    requires Alike(c, d)
    ensures DrawsRule(c, name, fuel) == DrawsRule(d, name, fuel)
    decreases fuel, 0
  {
    assert AlikeEntries(Lookup(c, name), Lookup(d, name));
    if Lookup(c, name).Some? && fuel > 0 {
      match Lookup(c, name).value
      case Text(text) => DrawsAllAlike(c, d, Elements(text), fuel - 1);
      case Choice(alts) => DrawsChoiceAlike(c, d, alts, fuel - 1);
      case Frozen(_) =>
      case Function(_) => DrawsRuleAlike(c, d, "OCTET", fuel - 1);
    }
  }

  /* --- The theorem --- */

  /** What is promised of an outcome that started with tape `t` and may draw `need` numbers. */
  ghost predicate Ends(r: Outcome, t: Tape, need: nat, sane: bool)
  {
    && r != Fail(StackOverflow)
    && (sane ==> r != Fail(Crash))
    && (r == Fail(OutOfNumbers) ==> |t| < need)
    && (r.Ok? ==> |t| - need <= |r.rest| <= |t|)
  }

  /** The assumptions, fixed through one induction. */
  ghost predicate Assumptions(c: Chain, names: Names, rank: string -> nat, sane: bool)
  {
    Ranked(c, names, rank) && (sane ==> Sane(c, names))
  }

  ghost predicate Fits(names: Names, rank: string -> nat, ms: set<string>, fuel: nat)
  {
    forall m | m in ms :: names(m) && rank(m) < fuel
  }

  lemma {:induction false} ElementEnds(c: Chain, names: Names, rank: string -> nat, sane: bool, e: Element, t: Tape,
      fuel: nat)
    requires Assumptions(c, names, rank, sane) && Fits(names, rank, Mentions(e), fuel) && (sane ==> SaneElement(e))
    ensures Ends(DecodeElement(c, e, t, fuel), t, DrawsElement(c, e, fuel), sane)
    decreases fuel, 1, e, 0
  {
    match e
    case Rule(name) => RuleEnds(c, names, rank, sane, name, t, fuel);
    case Repeat(min, max, item) =>
      if t != [] && !BadCount(min, max) {
        var n := DrawCount(min, max, t[0]);
        TimesEnds(c, names, rank, sane, item, n, t[1..], fuel);
        MulMonotone(n, MaxCount(min, max), DrawsElement(c, item, fuel));
      }
    case _ =>
  }

  lemma {:induction false} TimesEnds(c: Chain, names: Names, rank: string -> nat, sane: bool, item: Element, n: nat,
      t: Tape, fuel: nat)
    requires Assumptions(c, names, rank, sane) && Fits(names, rank, Mentions(item), fuel)
    requires sane ==> SaneElement(item)
    ensures Ends(DecodeTimes(c, item, n, t, fuel), t, n * DrawsElement(c, item, fuel), sane)
    decreases fuel, 1, item, n + 1
  {
    hide DecodeElement, DrawsElement, Fits, Assumptions, SaneElement;
    if n > 0 {
      ElementEnds(c, names, rank, sane, item, t, fuel);
      var d := DrawsElement(c, item, fuel);
      MulStep(n, d);
      var r := DecodeElement(c, item, t, fuel);
      if r.Ok? { TimesEnds(c, names, rank, sane, item, n - 1, r.rest, fuel); }
    }
  }

  lemma {:induction false} ElementsEnd(c: Chain, names: Names, rank: string -> nat, sane: bool, es: seq<Element>,
      t: Tape, fuel: nat)
    requires Assumptions(c, names, rank, sane) && Fits(names, rank, MentionsAll(es), fuel) && (sane ==> SaneAll(es))
    ensures Ends(DecodeElements(c, es, t, fuel), t, DrawsAll(c, es, fuel), sane)
    decreases fuel, 1, es, 0
  {
    if es != [] {
      ElementEnds(c, names, rank, sane, es[0], t, fuel);
      var r := DecodeElement(c, es[0], t, fuel);
      if r.Ok? { ElementsEnd(c, names, rank, sane, es[1..], r.rest, fuel); }
    }
  }

  lemma MulStep(n: nat, d: nat)
    requires n > 0
    ensures n * d == d + (n - 1) * d
  {
  }

  lemma {:induction false} HeadsEnd(c: Chain, names: Names, rank: string -> nat, sane: bool, n: nat, t: Tape, fuel: nat)
    requires Assumptions(c, names, rank, sane) && names("OCTET") && rank("OCTET") < fuel && (sane ==> OctetFull(c))
    ensures Ends(DecodeHeads(c, n, t, fuel), t, n * DrawsRule(c, "OCTET", fuel), sane)
    decreases fuel, 1, n
  {
    if n > 0 {
      RuleEnds(c, names, rank, sane, "OCTET", t, fuel);
      var r := DecodeRule(c, "OCTET", t, fuel);
      if r.Ok? && r.octets != [] { HeadsEnd(c, names, rank, sane, n - 1, r.rest, fuel); }
      if sane { OctetNotEmpty(c, t, fuel); }
      HeadsStep(c, n, t, fuel, DrawsRule(c, "OCTET", fuel), sane);
    }
  }

  lemma OctetNotEmpty(c: Chain, t: Tape, fuel: nat)
    requires OctetFull(c)
    ensures var r := DecodeRule(c, "OCTET", t, fuel); r.Ok? ==> r.octets != []
  {
    RuleSound(c, "OCTET", t, fuel);
  }

  lemma HeadsStep(c: Chain, n: nat, t: Tape, fuel: nat, d: nat, sane: bool)
    requires n > 0
    requires var r := DecodeRule(c, "OCTET", t, fuel);
             && Ends(r, t, d, sane)
             && (r.Ok? && sane ==> r.octets != [])
             && (r.Ok? && r.octets != [] ==> Ends(DecodeHeads(c, n - 1, r.rest, fuel), r.rest, (n - 1) * d, sane))
    ensures Ends(DecodeHeads(c, n, t, fuel), t, n * d, sane)
  {
    MulStep(n, d);
  }

  lemma {:induction false} EntryEnds(c: Chain, names: Names, rank: string -> nat, sane: bool, e: Entry, t: Tape,
      fuel: nat)
    requires Assumptions(c, names, rank, sane)
    requires forall m | EntryMentions(e, m) :: names(m) && rank(m) < fuel
    requires sane ==> SaneEntry(e) && (e.Function? ==> OctetFull(c))
    ensures Ends(DecodeEntry(c, e, t, fuel), t, DrawsEntry(c, e, fuel), sane)
    decreases fuel, 3
  {
    match e
    case Text(text) =>
      assert forall m | m in MentionsAll(Elements(text)) :: EntryMentions(e, m);
      ElementsEnd(c, names, rank, sane, Elements(text), t, fuel);
    case Choice(alts) =>
      if alts != [] && t != [] {
        var i := t[0] % |alts|;
        assert forall m | m in MentionsAll(Elements(alts[i])) :: EntryMentions(e, m);
        ElementsEnd(c, names, rank, sane, Elements(alts[i]), t[1..], fuel);
      }
    case Frozen(_) =>
    case Function(g) =>
      assert EntryMentions(e, "OCTET");
      if t != [] {
        var n := t[0] % REPETITION_INFTY;
        HeadsEnd(c, names, rank, sane, n, t[1..], fuel);
        MulMonotone(n, REPETITION_INFTY, DrawsRule(c, "OCTET", fuel));
      }
  }

  /** Termination by stratification: with more stack frames than the rule's rank, decode_rule
      never runs out of stack on any tape, draws at most DrawsRule numbers, and on sane text
      returns octets whenever the tape holds that many. */
  lemma {:induction false} RuleEnds(c: Chain, names: Names, rank: string -> nat, sane: bool, name: string, t: Tape,
      fuel: nat)
    requires Assumptions(c, names, rank, sane) && names(name) && rank(name) < fuel
    ensures Ends(DecodeRule(c, name, t, fuel), t, DrawsRule(c, name, fuel), sane)
    decreases fuel, 0
  {
    match Lookup(c, name)
    case None =>
    case Some(e) => EntryEnds(c, names, rank, sane, e, t, fuel - 1);
  }

  /** A rule that mentions itself has no rank: stratification is a real restriction. */
  lemma SelfMentionUnranked(c: Chain, names: Names, rank: string -> nat, name: string)
    requires names(name) && Lookup(c, name).Some? && EntryMentions(Lookup(c, name).value, name)
    ensures !Ranked(c, names, rank)
  {
  }

  /** And for a reason: a rule that is nothing but itself outgrows every stack, on every tape. */
  lemma {:induction false} SelfMentionOverflows(c: Chain, name: string, text: string, t: Tape, fuel: nat)
    requires Lookup(c, name) == Some(Text(text)) && Elements(text) == [Rule(name)]
    ensures DecodeRule(c, name, t, fuel) == Fail(StackOverflow)
    decreases fuel
  {
    if fuel > 0 {
      OneElement(c, Rule(name), t, fuel - 1);
      SelfMentionOverflows(c, name, text, t, fuel - 1);
    }
  }
}
