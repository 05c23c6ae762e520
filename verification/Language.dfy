/** Grammars, environments, and what an environment's rules mean as sets of octet strings.

    An environment is a chain of rule tables searched innermost first; rule names inside rule
    bodies are looked up again in the whole chain when they are met (late binding). The meaning of
    the rules is the least solution of the language equations their bodies spell out, reached by
    the stages `Stage(c, 0)`, `Stage(c, 1)`, ... */
module Language {
  import opened Octets
  import opened CText
  import opened Abnf

  /** The two generator functions installed as FUNCTION entries (fuzzer/Connection.c). */
  datatype Generator = ShortString | LongString

  datatype Entry =
    | Text(text: string)
    | Choice(alternatives: seq<string>)
    | Frozen(octets: seq<byte>)
    | Function(generator: Generator)

  type Table = map<string, Entry>
  type Chain = seq<Table>

  /** environment_lookup: the innermost table that defines the name wins. */
  function Lookup(c: Chain, name: string): Option<Entry>
  {
    if c == [] then None
    else if name in c[0] then Some(c[0][name])
    else Lookup(c[1..], name)
  }

  /** environment_lookup's walk along the chain. */
  method EnvironmentLookup(env: Chain, name: string) returns (result: Option<Entry>)
    ensures result == Lookup(env, name)
  {
    result := None;
    var i := 0;
    while result == None && i < |env|
      invariant 0 <= i <= |env|
      invariant result == None ==> Lookup(env, name) == Lookup(env[i..], name)
      invariant result != None ==> result == Lookup(env, name)
    {
      if name in env[i] { result := Some(env[i][name]); }
      assert env[i..][1..] == env[i + 1..];
      i := i + 1;
    }
  }

  /* --- The declarative meaning of bodies, given a meaning of the rule names in them --- */

  /** Membership of octet strings in the language of each rule name. */
  type Meaning = (string, seq<byte>) -> bool

  ghost predicate InElement(I: Meaning, e: Element, b: seq<byte>)
    decreases e, 0
  {
    match e
    case Rule(name) => I(name, b)
    case Literal(octets) => b == octets
    case Range(lo, hi) => exists v: nat :: RangeAllows(lo, hi, v) && b == RangeOctets(hi, v)
    case Repeat(min, max, item) => exists n: nat :: CountAllows(min, max, n) && InTimes(I, item, n, b)
    case Skip => b == []
    case Malformed => false
  }

  ghost predicate InTimes(I: Meaning, item: Element, n: nat, b: seq<byte>)
    decreases item, n + 1
  {
    if n == 0 then b == []
    else exists k :: 0 <= k <= |b| && InElement(I, item, b[..k]) && InTimes(I, item, n - 1, b[k..])
  }

  ghost predicate InElements(I: Meaning, es: seq<Element>, b: seq<byte>)
  {
    if es == [] then b == []
    else exists k :: 0 <= k <= |b| && InElement(I, es[0], b[..k]) && InElements(I, es[1..], b[k..])
  }

  /** An octet that can come first in some decoding of OCTET. */
  ghost predicate OctetHead(I: Meaning, x: byte)
  {
    exists d: seq<byte> :: d != [] && d[0] == x && I("OCTET", d)
  }

  /** shortstring_generator: one length octet below 16, then that many octets.
      longstring_generator: four big-endian length octets, then that many octets. */
  ghost predicate InGenerator(I: Meaning, g: Generator, b: seq<byte>)
  {
    match g
    case ShortString =>
      && 0 < |b| <= REPETITION_INFTY && b[0] == |b| - 1
      && (forall i | 1 <= i < |b| :: OctetHead(I, b[i]))
    case LongString =>
      && 4 <= |b| < REPETITION_INFTY + 4 && b[..4] == BE(|b| - 4, 4)
      && (forall i | 4 <= i < |b| :: OctetHead(I, b[i]))
  }

  ghost predicate InEntry(I: Meaning, e: Entry, b: seq<byte>)
  {
    match e
    case Text(text) => InElements(I, Elements(text), b)
    case Choice(alts) => exists i :: 0 <= i < |alts| && InElements(I, Elements(alts[i]), b)
    case Frozen(octets) => b == octets
    case Function(g) => InGenerator(I, g, b)
  }

  /** One unfolding of a rule name; an undefined name means the empty string. */
  ghost predicate InBody(c: Chain, I: Meaning, name: string, b: seq<byte>)
  {
    match Lookup(c, name)
    case None => b == []
    case Some(e) => InEntry(I, e, b)
  }

  /** Octet strings derivable with at most `h` nested rule expansions. */
  ghost predicate InRule(c: Chain, name: string, b: seq<byte>, h: nat)
    decreases h, 0
  {
    match Lookup(c, name)
    case None => b == []
    case Some(e) => h > 0 && InEntry(Stage(c, h - 1), e, b)
  }

  ghost function Stage(c: Chain, h: nat): Meaning
    decreases h, 1
  {
    (name, b) => InRule(c, name, b, h)
  }

  lemma StageIs(c: Chain, h: nat)
    ensures forall n, b :: Stage(c, h)(n, b) <==> InRule(c, n, b, h)
  {
  }

  /** The language of a rule name in an environment. */
  ghost predicate InLanguage(c: Chain, name: string, b: seq<byte>)
  {
    exists h: nat :: InRule(c, name, b, h)
  }

  /** The languages of an environment's rules, as one meaning. */
  ghost function Whole(c: Chain): Meaning { (n, b) => InLanguage(c, n, b) }

  /* --- Monotonicity --- */

  ghost predicate Included(I: Meaning, J: Meaning) { forall n, b :: I(n, b) ==> J(n, b) }

  /** A property of rule names. */
  type Names = string -> bool

  /** J covers I on the given names. */
  ghost predicate BelowOn(names: Names, I: Meaning, J: Meaning)
  {
    forall n, b :: names(n) && I(n, b) ==> J(n, b)
  }

  function Mentions(e: Element): set<string>
  {
    match e
    case Rule(name) => {name}
    case Repeat(_, _, item) => Mentions(item)
    case _ => {}
  }

  function MentionsAll(es: seq<Element>): (ns: set<string>)
    ensures forall i | 0 <= i < |es| :: Mentions(es[i]) <= ns
  {
    if es == [] then {} else Mentions(es[0]) + MentionsAll(es[1..])
  }

  /** The rule names an entry refers to. */
  ghost predicate EntryMentions(e: Entry, name: string)
  {
    match e
    case Text(text) => name in MentionsAll(Elements(text))
    case Choice(alts) => exists i :: 0 <= i < |alts| && name in MentionsAll(Elements(alts[i]))
    case Frozen(_) => false
    case Function(_) => name == "OCTET"
  }

  ghost predicate EntryWithin(e: Entry, names: Names)
  {
    forall n | EntryMentions(e, n) :: names(n)
  }

  lemma {:induction false} ElementMonotone(names: Names, I: Meaning, J: Meaning, e: Element, b: seq<byte>)
    requires BelowOn(names, I, J) && (forall n | n in Mentions(e) :: names(n)) && InElement(I, e, b)
    ensures InElement(J, e, b)
    decreases e, 0
  {
    match e
    case Repeat(min, max, item) =>
      var n: nat :| CountAllows(min, max, n) && InTimes(I, item, n, b);
      TimesMonotone(names, I, J, item, n, b);
    case _ =>
  }

  lemma NoCopy(I: Meaning, J: Meaning, item: Element, b: seq<byte>)
    ensures InTimes(I, item, 0, b) ==> InTimes(J, item, 0, b)
  {
  }

  lemma FirstCopy(I: Meaning, item: Element, n: nat, b: seq<byte>) returns (k: nat)
    requires n > 0
    requires InTimes(I, item, n, b)
    ensures k <= |b| && InElement(I, item, b[..k]) && InTimes(I, item, n - 1, b[k..])
  {
    k :| 0 <= k <= |b| && InElement(I, item, b[..k]) && InTimes(I, item, n - 1, b[k..]);
  }

  lemma OneMoreCopy(I: Meaning, item: Element, n: nat, b: seq<byte>, k: nat)
    requires n > 0 && k <= |b| && InElement(I, item, b[..k]) && InTimes(I, item, n - 1, b[k..])
    ensures InTimes(I, item, n, b)
  {
  }

  lemma {:induction false} TimesMonotone(names: Names, I: Meaning, J: Meaning, item: Element, n: nat, b: seq<byte>)
    requires BelowOn(names, I, J) && (forall m | m in Mentions(item) :: names(m)) && InTimes(I, item, n, b)
    ensures InTimes(J, item, n, b)
    decreases item, n + 1
  {
    hide *;
    if n == 0 {
      NoCopy(I, J, item, b);
    } else {
      var k := FirstCopy(I, item, n, b);
      ElementMonotone(names, I, J, item, b[..k]);
      TimesMonotone(names, I, J, item, n - 1, b[k..]);
      OneMoreCopy(J, item, n, b, k);
    }
  }

  lemma {:induction false} ElementsMonotone(names: Names, I: Meaning, J: Meaning, es: seq<Element>, b: seq<byte>)
    requires BelowOn(names, I, J) && (forall n | n in MentionsAll(es) :: names(n)) && InElements(I, es, b)
    ensures InElements(J, es, b)
  {
    if es != [] {
      var k :| 0 <= k <= |b| && InElement(I, es[0], b[..k]) && InElements(I, es[1..], b[k..]);
      ElementMonotone(names, I, J, es[0], b[..k]);
      ElementsMonotone(names, I, J, es[1..], b[k..]);
    }
  }

  lemma EntryMonotone(names: Names, I: Meaning, J: Meaning, e: Entry, b: seq<byte>)
    requires BelowOn(names, I, J) && EntryWithin(e, names) && InEntry(I, e, b)
    ensures InEntry(J, e, b)
  {
    match e
    case Text(text) => ElementsMonotone(names, I, J, Elements(text), b);
    case Choice(alts) =>
      var i :| 0 <= i < |alts| && InElements(I, Elements(alts[i]), b);
      ElementsMonotone(names, I, J, Elements(alts[i]), b);
    case Frozen(_) =>
    case Function(g) =>
      assert EntryMentions(e, "OCTET");
      assert forall x: byte :: OctetHead(I, x) ==> OctetHead(J, x);
  }

  lemma EntryMonotoneAll(I: Meaning, J: Meaning, e: Entry, b: seq<byte>)
    requires Included(I, J) && InEntry(I, e, b)
    ensures InEntry(J, e, b)
  {
    var all := (n: string) => true;
    EntryMonotone(all, I, J, e, b);
  }

  lemma {:induction false} StageMonotone(c: Chain, h: nat, h': nat)
    requires h <= h'
    ensures Included(Stage(c, h), Stage(c, h'))
    decreases h
  {
    StageIs(c, h);
    StageIs(c, h');
    forall n, b | Stage(c, h)(n, b) ensures Stage(c, h')(n, b) {
      if h > 0 && Lookup(c, n).Some? {
        StageMonotone(c, h - 1, h' - 1);
        EntryMonotoneAll(Stage(c, h - 1), Stage(c, h' - 1), Lookup(c, n).value, b);
      }
    }
  }

  /* --- Induction over derivations --- */

  /** A set of names no rule of which leads out of the set. */
  ghost predicate Reaches(c: Chain, names: Names)
  {
    forall n | names(n) && Lookup(c, n).Some? :: EntryWithin(Lookup(c, n).value, names)
  }

  /** On the given names, J contains everything one unfolding produces from J. */
  ghost predicate Closed(c: Chain, names: Names, J: Meaning)
  {
    forall n, b :: names(n) && InBody(c, J, n, b) ==> J(n, b)
  }

  /** The induction principle of the rule language: the languages are the least closed meaning. */
  lemma {:induction false} Induct(c: Chain, names: Names, J: Meaning, h: nat)
    requires Reaches(c, names) && Closed(c, names, J)
    ensures BelowOn(names, Stage(c, h), J)
    decreases h
  {
    StageIs(c, h);
    forall n, b | names(n) && Stage(c, h)(n, b) ensures J(n, b) {
      if Lookup(c, n).Some? {
        Induct(c, names, J, h - 1);
        EntryMonotone(names, Stage(c, h - 1), J, Lookup(c, n).value, b);
      }
      assert InBody(c, J, n, b);
    }
  }

  /* --- The languages solve the equations --- */

  lemma StageInWhole(c: Chain, h: nat)
    ensures Included(Stage(c, h), Whole(c))
  {
    StageIs(c, h);
  }

  /** Two stages lie in a later one. */
  lemma Raise(c: Chain, g: nat, h: nat) returns (top: nat, all: Names)
    ensures BelowOn(all, Stage(c, g), Stage(c, top)) && BelowOn(all, Stage(c, h), Stage(c, top))
    ensures forall n :: all(n)
  {
    top := if g < h then h else g;
    all := n => true;
    StageMonotone(c, g, top);
    StageMonotone(c, h, top);
  }

  /** What an element derives from the whole languages it derives from some stage. */
  lemma {:induction false} ElementReached(c: Chain, e: Element, b: seq<byte>) returns (h: nat)
    requires InElement(Whole(c), e, b)
    ensures InElement(Stage(c, h), e, b)
    decreases e, 0
  {
    h := 0;
    match e
    case Rule(name) =>
      h :| InRule(c, name, b, h);
    case Repeat(min, max, item) =>
      var n: nat :| CountAllows(min, max, n) && InTimes(Whole(c), item, n, b);
      h := TimesReached(c, item, n, b);
    case _ =>
  }

  lemma {:induction false} TimesReached(c: Chain, item: Element, n: nat, b: seq<byte>) returns (h: nat)
    requires InTimes(Whole(c), item, n, b)
    ensures InTimes(Stage(c, h), item, n, b)
    decreases item, n + 1
  {
    hide *;
    h := 0;
    if n == 0 {
      NoCopy(Whole(c), Stage(c, h), item, b);
    } else {
      var k := FirstCopy(Whole(c), item, n, b);
      var first := ElementReached(c, item, b[..k]);
      var others := TimesReached(c, item, n - 1, b[k..]);
      var all;
      h, all := Raise(c, first, others);
      ElementMonotone(all, Stage(c, first), Stage(c, h), item, b[..k]);
      TimesMonotone(all, Stage(c, others), Stage(c, h), item, n - 1, b[k..]);
      OneMoreCopy(Stage(c, h), item, n, b, k);
    }
  }

  lemma {:induction false} ElementsReached(c: Chain, es: seq<Element>, b: seq<byte>) returns (h: nat)
    requires InElements(Whole(c), es, b)
    ensures InElements(Stage(c, h), es, b)
  {
    h := 0;
    if es != [] {
      var k :| 0 <= k <= |b| && InElement(Whole(c), es[0], b[..k]) && InElements(Whole(c), es[1..], b[k..]);
      var first := ElementReached(c, es[0], b[..k]);
      var others := ElementsReached(c, es[1..], b[k..]);
      var all;
      h, all := Raise(c, first, others);
      ElementMonotone(all, Stage(c, first), Stage(c, h), es[0], b[..k]);
      ElementsMonotone(all, Stage(c, others), Stage(c, h), es[1..], b[k..]);
    }
  }

  lemma {:induction false} HeadsReached(c: Chain, heads: seq<byte>) returns (h: nat)
    requires forall i | 0 <= i < |heads| :: OctetHead(Whole(c), heads[i])
    ensures forall i | 0 <= i < |heads| :: OctetHead(Stage(c, h), heads[i])
  {
    h := 0;
    if heads != [] {
      var d: seq<byte> :| d != [] && d[0] == heads[0] && Whole(c)("OCTET", d);
      var first: nat :| InRule(c, "OCTET", d, first);
      assert Stage(c, first)("OCTET", d) && OctetHead(Stage(c, first), heads[0]);
      var others := HeadsReached(c, heads[1..]);
      var all;
      h, all := Raise(c, first, others);
      forall i | 0 <= i < |heads| ensures OctetHead(Stage(c, h), heads[i]) {
        if i > 0 { assert heads[1..][i - 1] == heads[i] && OctetHead(Stage(c, others), heads[i]); }
        var x :| x != [] && x[0] == heads[i] && Stage(c, if i > 0 then others else first)("OCTET", x);
        assert all("OCTET") && Stage(c, h)("OCTET", x);
      }
    }
  }

  lemma EntryReached(c: Chain, e: Entry, b: seq<byte>) returns (h: nat)
    requires InEntry(Whole(c), e, b)
    ensures InEntry(Stage(c, h), e, b)
  {
    h := 0;
    match e
    case Text(text) => h := ElementsReached(c, Elements(text), b);
    case Choice(alts) =>
      var i :| 0 <= i < |alts| && InElements(Whole(c), Elements(alts[i]), b);
      h := ElementsReached(c, Elements(alts[i]), b);
    case Frozen(_) =>
    case Function(g) =>
      var start := if g.ShortString? then 1 else 4;
      h := HeadsReached(c, b[start..]);
      forall i | start <= i < |b| ensures OctetHead(Stage(c, h), b[i]) {
        assert b[start..][i - start] == b[i];
      }
  }

  /** The languages solve the equations the rules spell out: a rule derives exactly what one
      unfolding of its body over the languages themselves derives. */
  lemma Unfold(c: Chain, name: string, b: seq<byte>)
    ensures InLanguage(c, name, b) <==> InBody(c, Whole(c), name, b)
  {
    match Lookup(c, name)
    case None => assert InRule(c, name, b, 0) <==> b == [];
    case Some(e) =>
      if InLanguage(c, name, b) {
        var h: nat :| InRule(c, name, b, h);
        StageInWhole(c, h - 1);
        EntryMonotoneAll(Stage(c, h - 1), Whole(c), e, b);
      }
      if InEntry(Whole(c), e, b) {
        var h := EntryReached(c, e, b);
        assert InRule(c, name, b, h + 1);
      }
  }

  /** And they are the least solution: any meaning closed under unfolding contains them. */
  lemma LeastSolution(c: Chain, names: Names, J: Meaning)
    requires Reaches(c, names) && Closed(c, names, J)
    ensures BelowOn(names, Whole(c), J)
  {
    forall n, b | names(n) && Whole(c)(n, b) ensures J(n, b) {
      var h: nat :| InRule(c, n, b, h);
      Induct(c, names, J, h);
      assert Stage(c, h)(n, b);
    }
  }

  /** What a rule derives, one unfolding of its body over the whole languages derives. */
  lemma Unfolded(c: Chain, name: string, b: seq<byte>)
    requires Whole(c)(name, b)
    ensures InBody(c, Whole(c), name, b)
  {
    Unfold(c, name, b);
  }

  /* --- Late binding: only the lookups that are reached matter --- */

  ghost predicate AgreeOn(c: Chain, d: Chain, names: Names)
  {
    forall n | names(n) :: Lookup(c, n) == Lookup(d, n)
  }

  lemma {:induction false} Frame(c: Chain, d: Chain, names: Names, h: nat)
    requires Reaches(c, names) && AgreeOn(c, d, names)
    ensures BelowOn(names, Stage(c, h), Stage(d, h)) && BelowOn(names, Stage(d, h), Stage(c, h))
    decreases h
  {
    StageIs(c, h);
    StageIs(d, h);
    forall n, b | names(n) ensures Stage(c, h)(n, b) == Stage(d, h)(n, b) {
      if h > 0 && Lookup(c, n).Some? {
        var e := Lookup(c, n).value;
        Frame(c, d, names, h - 1);
        if InEntry(Stage(c, h - 1), e, b) { EntryMonotone(names, Stage(c, h - 1), Stage(d, h - 1), e, b); }
        if InEntry(Stage(d, h - 1), e, b) { EntryMonotone(names, Stage(d, h - 1), Stage(c, h - 1), e, b); }
      }
    }
  }
}
