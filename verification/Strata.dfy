/** Stratified rule sets with length bounds: what decode_rule needs to end, and a calculus of how
    many octets it can return, both carried through any sequence of first overrides. */
module Strata {
  import opened Octets
  import opened Abnf
  import opened Language
  import opened Termination
  import opened Override

  /** The AMQP grammars need strata 0 to 10. */
  const TOP: nat := 10
  type Stratum = r: nat | r <= TOP

  /** A rule's stratum and the least and greatest number of octets it decodes to. */
  datatype Bound = Bound(rank: Stratum, lo: nat, hi: nat)
  type Bounds = map<string, Bound>

  /* --- The length calculus --- */

  function Lo(B: Bounds, e: Element): nat
  {
    match e
    case Rule(n) => if n in B then B[n].lo else 0
    case Literal(octets) => |octets|
    case Range(_, hi) => Width(hi)
    case Repeat(min, _, item) => min * Lo(B, item)
    case _ => 0
  }

  function Hi(B: Bounds, e: Element): nat
  {
    match e
    case Rule(n) => if n in B then B[n].hi else 0
    case Literal(octets) => |octets|
    case Range(_, hi) => Width(hi)
    case Repeat(min, max, item) => MaxCount(min, max) * Hi(B, item)
    case _ => 0
  }

  function LoAll(B: Bounds, es: seq<Element>): nat
  {
    if es == [] then 0 else Lo(B, es[0]) + LoAll(B, es[1..])
  }

  function HiAll(B: Bounds, es: seq<Element>): nat
  {
    if es == [] then 0 else Hi(B, es[0]) + HiAll(B, es[1..])
  }

  /** Everything mentioned lies in a lower stratum, and nothing crashes. */
  predicate Lower(B: Bounds, e: Element, k: nat)
  {
    SaneElement(e) && forall n | n in Mentions(e) :: n in B && B[n].rank < k
  }

  predicate LowerAll(B: Bounds, es: seq<Element>, k: nat)
  {
    forall i | 0 <= i < |es| :: Lower(B, es[i], k)
  }

  /** Octet strings within the bounds of the rule they are decoded from. */
  ghost function Sized(B: Bounds): Meaning
  {
    (n, b) => Plain(n) in B ==> B[Plain(n)].lo <= |b| <= B[Plain(n)].hi
  }

  predicate PlainNames(B: Bounds) { forall n | n in B :: Plain(n) == n }

  lemma {:induction false} ElementSized(B: Bounds, e: Element, b: seq<byte>)
    requires PlainNames(B) && (forall n | n in Mentions(e) :: n in B) && InElement(Sized(B), e, b)
    ensures Lo(B, e) <= |b| <= Hi(B, e)
    decreases e, 0
  {
    match e
    case Repeat(min, max, item) =>
      var n: nat :| CountAllows(min, max, n) && InTimes(Sized(B), item, n, b);
      TimesSized(B, item, n, b);
      MulMonotone(min, n, Lo(B, item));
      MulMonotone(n, MaxCount(min, max), Hi(B, item));
    case _ =>
  }

  lemma {:induction false} TimesSized(B: Bounds, item: Element, n: nat, b: seq<byte>)
    requires PlainNames(B) && (forall n | n in Mentions(item) :: n in B) && InTimes(Sized(B), item, n, b)
    ensures n * Lo(B, item) <= |b| <= n * Hi(B, item)
    decreases item, n + 1
  {
    if n > 0 {
      var k :| 0 <= k <= |b| && InElement(Sized(B), item, b[..k]) && InTimes(Sized(B), item, n - 1, b[k..]);
      ElementSized(B, item, b[..k]);
      TimesSized(B, item, n - 1, b[k..]);
      MulStep(n, Lo(B, item));
      MulStep(n, Hi(B, item));
    }
  }

  lemma {:induction false} ElementsSized(B: Bounds, es: seq<Element>, b: seq<byte>)
    requires PlainNames(B) && (forall n | n in MentionsAll(es) :: n in B) && InElements(Sized(B), es, b)
    ensures LoAll(B, es) <= |b| <= HiAll(B, es)
  {
    if es != [] {
      var k :| 0 <= k <= |b| && InElement(Sized(B), es[0], b[..k]) && InElements(Sized(B), es[1..], b[k..]);
      ElementSized(B, es[0], b[..k]);
      ElementsSized(B, es[1..], b[k..]);
    }
  }

  lemma {:induction false} MentionedBy(es: seq<Element>, n: string)
    requires n in MentionsAll(es)
    ensures exists i :: 0 <= i < |es| && n in Mentions(es[i])
  {
    if n in Mentions(es[0]) {
      assert n in Mentions(es[0]);
    } else {
      MentionedBy(es[1..], n);
      var i :| 0 <= i < |es[1..]| && n in Mentions(es[1..][i]);
      assert n in Mentions(es[i + 1]);
    }
  }

  /* --- One rule --- */

  /** An alternative fits the bound of the rule it belongs to. */
  predicate FitsAlternative(B: Bounds, bound: Bound, es: seq<Element>)
  {
    LowerAll(B, es, bound.rank) && bound.lo <= LoAll(B, es) && HiAll(B, es) <= bound.hi
  }

  /** An entry may stand for a rule of this bound. */
  ghost predicate FitsEntry(B: Bounds, bound: Bound, e: Entry)
  {
    match e
    case Text(text) => FitsAlternative(B, bound, Elements(text))
    case Choice(alts) => alts != [] && forall i | 0 <= i < |alts| :: FitsAlternative(B, bound, Elements(alts[i]))
    case Frozen(octets) => bound.lo <= |octets| <= bound.hi
    case Function(_) => false
  }

  lemma AlternativeMentions(B: Bounds, bound: Bound, es: seq<Element>, n: string)
    requires FitsAlternative(B, bound, es) && n in MentionsAll(es)
    ensures n in B && B[n].rank < bound.rank
  {
    MentionedBy(es, n);
    var i :| 0 <= i < |es| && n in Mentions(es[i]);
    assert Lower(B, es[i], bound.rank);
  }

  lemma FitMentions(B: Bounds, bound: Bound, e: Entry, n: string)
    requires FitsEntry(B, bound, e) && EntryMentions(e, n)
    ensures n in B && B[n].rank < bound.rank
  {
    match e
    case Text(text) => AlternativeMentions(B, bound, Elements(text), n);
    case Choice(alts) =>
      var i :| 0 <= i < |alts| && n in MentionsAll(Elements(alts[i]));
      AlternativeMentions(B, bound, Elements(alts[i]), n);
    case _ =>
  }

  lemma FitSane(B: Bounds, bound: Bound, e: Entry)
    requires FitsEntry(B, bound, e)
    ensures SaneEntry(e)
  {
    match e
    case Text(text) => AlternativeSane(B, bound, Elements(text));
    case Choice(alts) =>
      forall a | a in alts ensures SaneAll(Elements(a)) {
        var i :| 0 <= i < |alts| && alts[i] == a;
        AlternativeSane(B, bound, Elements(alts[i]));
      }
    case _ =>
  }

  lemma AlternativeSane(B: Bounds, bound: Bound, es: seq<Element>)
    requires FitsAlternative(B, bound, es)
    ensures SaneAll(es)
  {
    forall e | e in es ensures SaneElement(e) {
      var i :| 0 <= i < |es| && es[i] == e;
      assert Lower(B, es[i], bound.rank);
    }
  }

  lemma AlternativeSized(B: Bounds, bound: Bound, es: seq<Element>, b: seq<byte>)
    requires PlainNames(B) && FitsAlternative(B, bound, es) && InElements(Sized(B), es, b)
    ensures bound.lo <= |b| <= bound.hi
  {
    forall n | n in MentionsAll(es) ensures n in B { AlternativeMentions(B, bound, es, n); }
    ElementsSized(B, es, b);
  }

  lemma FitSized(B: Bounds, bound: Bound, e: Entry, b: seq<byte>)
    requires PlainNames(B) && FitsEntry(B, bound, e) && InEntry(Sized(B), e, b)
    ensures bound.lo <= |b| <= bound.hi
  {
    match e
    case Text(text) => AlternativeSized(B, bound, Elements(text), b);
    case Choice(alts) =>
      var i :| 0 <= i < |alts| && InElements(Sized(B), Elements(alts[i]), b);
      AlternativeSized(B, bound, Elements(alts[i]), b);
    case _ =>
  }

  /* --- An environment --- */

  /** Every bounded rule is undefined (and may be empty) or has an entry that fits. */
  ghost predicate Stratified(c: Chain, B: Bounds)
  {
    && PlainNames(B)
    && forall n | n in B ::
         match Lookup(c, n) case None => B[n].lo == 0 case Some(e) => FitsEntry(B, B[n], e)
  }

  function NamesOf(B: Bounds): Names { n => n in B }

  function RankOf(B: Bounds): string -> nat { n => if n in B then B[n].rank else 0 }

  /** What overrides preserve: a stratification, sane text, no generator functions, and a closed
      meaning. */
  ghost predicate Good(c: Chain, names: Names, rank: string -> nat, J: Meaning)
  {
    && Ranked(c, names, rank)
    && Sane(c, names)
    && (forall n | names(n) && Lookup(c, n).Some? :: !Lookup(c, n).value.Function?)
    && Closed(c, names, J)
  }

  lemma StratifiedGood(c: Chain, B: Bounds)
    requires Stratified(c, B)
    ensures Good(c, NamesOf(B), RankOf(B), Sized(B))
  {
    StratifiedRanked(c, B);
    hide FitsEntry, Lookup, InEntry, EntryMentions, SaneEntry, Sized;
    forall n | n in B && Lookup(c, n).Some? ensures SaneEntry(Lookup(c, n).value) && !Lookup(c, n).value.Function? {
      FitSane(B, B[n], Lookup(c, n).value);
      NoFunction(B, B[n], Lookup(c, n).value);
    }
    forall n, b | n in B && InBody(c, Sized(B), n, b) ensures Sized(B)(n, b) { BodySized(c, B, n, b); }
  }

  lemma NoFunction(B: Bounds, bound: Bound, e: Entry)
    requires FitsEntry(B, bound, e)
    ensures !e.Function?
  {
  }

  lemma BodySized(c: Chain, B: Bounds, n: string, b: seq<byte>)
    requires Stratified(c, B) && n in B && InBody(c, Sized(B), n, b)
    ensures Sized(B)(n, b)
  {
    hide FitsEntry, Lookup, InEntry;
    if Lookup(c, n).Some? { FitSized(B, B[n], Lookup(c, n).value, b); }
  }

  lemma StratifiedRanked(c: Chain, B: Bounds)
    requires Stratified(c, B)
    ensures Ranked(c, NamesOf(B), RankOf(B))
  {
    hide FitsEntry, Lookup, EntryMentions;
    forall n, m | NamesOf(B)(n) && Lookup(c, n).Some? && EntryMentions(Lookup(c, n).value, m)
      ensures NamesOf(B)(m) && RankOf(B)(m) < RankOf(B)(n)
    {
      FitMentions(B, B[n], Lookup(c, n).value, m);
    }
  }
}
