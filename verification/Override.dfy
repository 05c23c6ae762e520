/** The override layer (fuzzer/Grammar_Interface.c): rewriting rules of the innermost table under
    the rule chaos level, and what that does to languages, to stratification and to every property
    closed under unfolding. */
module Override {
  import opened Octets
  import opened CText
  import opened Abnf
  import opened Language
  import opened Termination

  /** RULE_CHAOS, which the command line keeps between 0 and 4. */
  type Level = l: nat | l <= 4

  function ChaosName(rule: string): string { "fuzzer-chaos-" + rule }
  function OrderName(rule: string): string { "fuzzer-order-" + rule }

  /** The names an override of this rule writes. */
  predicate Own(rule: string, n: string) { n == rule || n == ChaosName(rule) || n == OrderName(rule) }

  /** The alternatives installed at levels 1 to 3. */
  function RuleArray(level: Level, rule: string): (a: seq<string>)
    requires 1 <= level <= 3
    ensures |a| == if level == 2 then 2 else 4
  {
    if level == 2 then [OrderName(rule), ChaosName(rule)]
    else seq(4, i => if i < level then ChaosName(rule) else OrderName(rule))
  }

  /** Inserting NULL leaves a key that every lookup reads as absent. */
  function Put(t: Table, key: string, value: Option<Entry>): Table
  {
    match value case Some(e) => t[key := e] case None => t - {key}
  }

  function Overwrite(t: Table, env: Chain, rule: string, ordered: Entry, level: Level): Table
  {
    if level == 0 then t[rule := ordered]
    else if level == 4 then t
    else Put(t, ChaosName(rule), Lookup(env, rule))[OrderName(rule) := ordered][rule := Choice(RuleArray(level, rule))]
  }

  /** The environment after an override of its own innermost table. */
  function Overridden(t: Table, rest: Chain, rule: string, ordered: Entry, level: Level): Chain
  {
    [Overwrite(t, [t] + rest, rule, ordered, level)] + rest
  }

  lemma Shadowing(t: Table)
    ensures forall rest: Chain, n :: Lookup([t] + rest, n) == if n in t then Some(t[n]) else Lookup(rest, n)
    ensures forall n :: Lookup([t], n) == if n in t then Some(t[n]) else None
  {
    forall rest: Chain, n ensures Lookup([t] + rest, n) == if n in t then Some(t[n]) else Lookup(rest, n) {
      assert ([t] + rest)[1..] == rest;
    }
    assert [t] + [] == [t];
  }

  /** A hash table from names to entries, some of them NULL. */
  class Grammar {
    var table: Table          // the keys that hold an entry
    var keys: set<string>     // all keys, those holding NULL among them

    predicate Valid()
      reads this
    {
      table.Keys <= keys
    }

    constructor ()
      ensures Valid() && table == map[] && keys == {}
    {
      table, keys := map[], {};
    }

    /** grammar_insert: the key's new meaning in front of any environment; true when no value, not
        even NULL, was stored under it. */
    method Insert(key: string, value: Option<Entry>) returns (isNew: bool)
      requires Valid()
      modifies this
      ensures Valid() && keys == old(keys) + {key}
      ensures forall rest :: Lookup([table] + rest, key) == if value.Some? then value else Lookup(rest, key)
      ensures forall rest, n | n != key :: Lookup([table] + rest, n) == Lookup([old(table)] + rest, n)
      ensures isNew <==> key !in old(keys)
      ensures table == Put(old(table), key, value)
    {
      isNew := key !in keys;
      table, keys := Put(table, key, value), keys + {key};
      Shadowing(table);
      Shadowing(old(table));
    }
  }

  method OverwriteRuleWithChaos(target: Grammar?, env: Chain, rule: string, ordered: Entry, level: Level)
    returns (g: Grammar)
    requires target != null ==> target.Valid()
    modifies target
    ensures g.Valid()
    ensures target != null ==> g == target && g.table == Overwrite(old(target.table), env, rule, ordered, level)
    ensures target == null ==> fresh(g) && g.table == Overwrite(map[], env, rule, ordered, level)
  {
    if target == null { g := new Grammar(); } else { g := target; }
    var chaos, order := ChaosName(rule), OrderName(rule);
    ghost var was := g.table;
    if level == 0 {
      var _ := g.Insert(rule, Some(ordered));
    } else if level == 2 {
      var _ := g.Insert(chaos, Lookup(env, rule));
      var _ := g.Insert(order, Some(ordered));
      var _ := g.Insert(rule, Some(Choice([order, chaos])));
      assert [order, chaos] == RuleArray(level, rule);
      assert g.table == Overwrite(was, env, rule, ordered, level);
    } else if level == 1 || level == 3 {
      var ruleArray := new string[4];
      for i := 0 to 4
        invariant g.table == was && g.Valid()
        invariant forall k | 0 <= k < i :: ruleArray[k] == order
      {
        ruleArray[i] := order;
      }
      for i := 0 to level
        invariant g.table == was && g.Valid()
        invariant forall k | 0 <= k < i :: ruleArray[k] == chaos
        invariant forall k | i <= k < 4 :: ruleArray[k] == order
      {
        ruleArray[i] := chaos;
      }
      var alternatives := ruleArray[..];
      assert alternatives == RuleArray(level, rule);
      var _ := g.Insert(chaos, Lookup(env, rule));
      var _ := g.Insert(order, Some(ordered));
      var _ := g.Insert(rule, Some(Choice(alternatives)));
      assert g.table == Overwrite(was, env, rule, ordered, level);
    }
  }

  /* --- Names --- */

  lemma NamesApart(rule: string)
    ensures ChaosName(rule) != OrderName(rule) && ChaosName(rule) != rule && OrderName(rule) != rule
  {
    assert ChaosName(rule)[7] == 'c' && OrderName(rule)[7] == 'o';
    assert |ChaosName(rule)| == |OrderName(rule)| == 13 + |rule|;
  }

  /** The rule a name stands for once overrides have renamed it. */
  function Plain(n: string): string
  {
    if |n| >= 13 && (n[..13] == "fuzzer-chaos-" || n[..13] == "fuzzer-order-") then n[13..] else n
  }

  lemma PlainOfNew(rule: string)
    ensures Plain(ChaosName(rule)) == rule && Plain(OrderName(rule)) == rule
  {
    assert ChaosName(rule)[..13] == "fuzzer-chaos-" && ChaosName(rule)[13..] == rule;
    assert OrderName(rule)[..13] == "fuzzer-order-" && OrderName(rule)[13..] == rule;
  }

  /** The share of the raw rule among the alternatives grows by a quarter per level. */
  lemma ChaosShare(level: Level, rule: string)
    requires 1 <= level <= 3
    ensures var a := RuleArray(level, rule);
            && multiset(a)[ChaosName(rule)] * 4 == level * |a|
            && multiset(a)[OrderName(rule)] * 4 == (4 - level) * |a|
  {
    NamesApart(rule);
    var a, x, y := RuleArray(level, rule), ChaosName(rule), OrderName(rule);
    if level == 1 { assert a == [x, y, y, y]; }
    if level == 3 { assert a == [x, x, x, y]; }
  }

  /** Which rolls take the raw rule: at levels 1 and 3 the lowest remainders by 4, at level 2 the odd
      numbers; all others take the ordered one. */
  lemma RollDecides(level: Level, rule: string, roll: nat)
    requires 1 <= level <= 3
    ensures var a := RuleArray(level, rule);
            var raw := if level == 2 then roll % 2 == 1 else roll % 4 < level;
            a[roll % |a|] == (if raw then "fuzzer-chaos-" else "fuzzer-order-") + rule
  {
    if level == 2 {
      assert RuleArray(level, rule) == [OrderName(rule), ChaosName(rule)];
    } else {
      var a, k := RuleArray(level, rule), roll % 4;
      assert a[k] == if k < level then ChaosName(rule) else OrderName(rule);
    }
  }

  /** No earlier override of this rule has left its traces in the environment. */
  predicate FirstTime(c: Chain, rule: string)
  {
    Lookup(c, ChaosName(rule)) == None && Lookup(c, OrderName(rule)) == None
  }

  /** The lookups of the overridden environment. */
  lemma OverriddenLookups(t: Table, rest: Chain, rule: string, ordered: Entry, level: Level)
    requires FirstTime([t] + rest, rule)
    ensures var c := [t] + rest; var d := Overridden(t, rest, rule, ordered, level);
            && (forall n | !Own(rule, n) :: Lookup(d, n) == Lookup(c, n))
            && (level == 0 ==> Lookup(d, rule) == Some(ordered) && FirstTime(d, rule))
            && (level == 4 ==> d == c)
            && (1 <= level <= 3 ==>
                  && Lookup(d, rule) == Some(Choice(RuleArray(level, rule)))
                  && Lookup(d, OrderName(rule)) == Some(ordered)
                  && Lookup(d, ChaosName(rule)) == Lookup(c, rule))
  {
    NamesApart(rule);
    var c, d := [t] + rest, Overridden(t, rest, rule, ordered, level);
    assert c[1..] == rest && d[1..] == rest;
  }

  lemma NameElements(name: string)
    requires name != "" && ' ' !in name && name[0] == 'f'
    ensures Elements(name) == [Rule(name)]
  {
    TokensWord(name, ' ');
  }

  lemma SingleRule(I: Meaning, name: string, b: seq<byte>)
    ensures InElements(I, [Rule(name)], b) <==> I(name, b)
  {
    var es := [Rule(name)];
    assert es[1..] == [];
    if I(name, b) { assert b[..|b|] == b && b[|b|..] == []; }
    if InElements(I, es, b) {
      var k :| 0 <= k <= |b| && InElement(I, es[0], b[..k]) && InElements(I, es[1..], b[k..]);
      assert k == |b| && b[..k] == b;
    }
  }

  predicate OneWord(rule: string) { ' ' !in rule }

  /** What a rule array lists: one of the two new names, both of them listed. */
  lemma ArrayElements(level: Level, rule: string)
    requires 1 <= level <= 3 && OneWord(rule)
    ensures forall i | 0 <= i < |RuleArray(level, rule)| ::
              Elements(RuleArray(level, rule)[i]) == [Rule(RuleArray(level, rule)[i])]
    ensures forall i | 0 <= i < |RuleArray(level, rule)| ::
              RuleArray(level, rule)[i] == ChaosName(rule) || RuleArray(level, rule)[i] == OrderName(rule)
    ensures ChaosName(rule) in RuleArray(level, rule) && OrderName(rule) in RuleArray(level, rule)
  {
    NameElements(ChaosName(rule));
    NameElements(OrderName(rule));
    var a := RuleArray(level, rule);
    assert a[0] in a && a[|a| - 1] in a;
  }

  lemma ArrayMeaning(I: Meaning, level: Level, rule: string, b: seq<byte>)
    requires 1 <= level <= 3 && OneWord(rule)
    ensures InEntry(I, Choice(RuleArray(level, rule)), b) <==> I(ChaosName(rule), b) || I(OrderName(rule), b)
  {
    ArrayElements(level, rule);
    var a := RuleArray(level, rule);
    forall i | 0 <= i < |a| ensures InElements(I, Elements(a[i]), b) <==> I(a[i], b) {
      SingleRule(I, a[i], b);
    }
    var i :| 0 <= i < |a| && a[i] == ChaosName(rule);
    var j :| 0 <= j < |a| && a[j] == OrderName(rule);
    assert InElements(I, Elements(a[i]), b) <==> I(a[i], b);
    assert InElements(I, Elements(a[j]), b) <==> I(a[j], b);
  }

  /* --- Languages --- */

  /** Late binding notwithstanding, rules that cannot reach a changed name keep their languages. */
  lemma WholeFrame(c: Chain, d: Chain, names: Names)
    requires Reaches(c, names) && AgreeOn(c, d, names)
    ensures BelowOn(names, Whole(c), Whole(d)) && BelowOn(names, Whole(d), Whole(c))
  {
    forall n, b | names(n) ensures InLanguage(c, n, b) <==> InLanguage(d, n, b) {
      if InLanguage(c, n, b) {
        var h: nat :| InRule(c, n, b, h);
        Frame(c, d, names, h);
        assert Stage(c, h)(n, b) && Stage(d, h)(n, b) && InRule(d, n, b, h);
      }
      if InLanguage(d, n, b) {
        var h: nat :| InRule(d, n, b, h);
        Frame(c, d, names, h);
        assert Stage(d, h)(n, b) && Stage(c, h)(n, b) && InRule(c, n, b, h);
      }
    }
  }

  lemma EntryFrame(c: Chain, d: Chain, names: Names, e: Entry, b: seq<byte>)
    requires Reaches(c, names) && AgreeOn(c, d, names) && EntryWithin(e, names)
    ensures InEntry(Whole(c), e, b) <==> InEntry(Whole(d), e, b)
  {
    WholeFrame(c, d, names);
    if InEntry(Whole(c), e, b) { EntryMonotone(names, Whole(c), Whole(d), e, b); }
    if InEntry(Whole(d), e, b) { EntryMonotone(names, Whole(d), Whole(c), e, b); }
  }

  /** What an override does to the language of the rule it names: the ordered body alone at level
      0, the old rule alone at level 4, their union in between. */
  lemma OverrideLanguage(t: Table, rest: Chain, rule: string, ordered: Entry, level: Level, names: Names, b: seq<byte>)
    requires FirstTime([t] + rest, rule) && OneWord(rule)
    requires Reaches([t] + rest, names) && !names(rule) && !names(ChaosName(rule)) && !names(OrderName(rule))
    requires EntryWithin(ordered, names)
    requires Lookup([t] + rest, rule).Some? ==> EntryWithin(Lookup([t] + rest, rule).value, names)
    ensures var c := [t] + rest;
            InLanguage(Overridden(t, rest, rule, ordered, level), rule, b) <==>
              || (level < 4 && InEntry(Whole(c), ordered, b))
              || (level > 0 && InLanguage(c, rule, b))
  {
    var c, d := [t] + rest, Overridden(t, rest, rule, ordered, level);
    OverriddenLookups(t, rest, rule, ordered, level);
    assert AgreeOn(c, d, names);
    EntryFrame(c, d, names, ordered, b);
    Unfold(c, rule, b);
    Unfold(d, rule, b);
    if 1 <= level <= 3 {
      ArrayMeaning(Whole(d), level, rule, b);
      Unfold(d, OrderName(rule), b);
      Unfold(d, ChaosName(rule), b);
      if Lookup(c, rule).Some? { EntryFrame(c, d, names, Lookup(c, rule).value, b); }
    }
  }

  /** And to every rule that reaches none of the three names: nothing. */
  lemma OverrideFrame(t: Table, rest: Chain, rule: string, ordered: Entry, level: Level, names: Names, n: string,
      b: seq<byte>)
    requires FirstTime([t] + rest, rule) && names(n)
    requires Reaches([t] + rest, names) && !names(rule) && !names(ChaosName(rule)) && !names(OrderName(rule))
    ensures InLanguage(Overridden(t, rest, rule, ordered, level), n, b) <==> InLanguage([t] + rest, n, b)
  {
    OverriddenLookups(t, rest, rule, ordered, level);
    WholeFrame([t] + rest, Overridden(t, rest, rule, ordered, level), names);
    assert Whole([t] + rest)(n, b) <==> Whole(Overridden(t, rest, rule, ordered, level))(n, b);
  }

  /** Overriding a rule twice is different: at levels 1 to 3 the second override makes the chaos
      name list itself, so no rank exists any more. */
  lemma SecondOverrideCycles(t: Table, rest: Chain, rule: string, ordered: Entry, level: Level, names: Names,
      rank: string -> nat)
    requires 1 <= level <= 3 && OneWord(rule) && names(ChaosName(rule))
    requires Lookup([t] + rest, rule) == Some(Choice(RuleArray(level, rule)))
    ensures !Ranked(Overridden(t, rest, rule, ordered, level), names, rank)
  {
    var d := Overridden(t, rest, rule, ordered, level);
    NamesApart(rule);
    var a, x := RuleArray(level, rule), ChaosName(rule);
    assert Lookup(d, x) == Some(Choice(a));
    ArrayElements(level, rule);
    var i :| 0 <= i < |a| && a[i] == x;
    assert Mentions(Elements(a[i])[0]) == {x};
    SelfMentionUnranked(d, names, rank, x);
  }

  /* --- Stratification --- */

  function Reranked(rank: string -> nat, rule: string): string -> nat
  {
    n => if n == ChaosName(rule) || n == OrderName(rule) then rank(rule)
         else if rank(n) >= rank(rule) then rank(n) + 1 else rank(n)
  }

  /** The names in use after an override: levels 1 to 3 bring in two new ones. */
  function WithNew(names: Names, rule: string, level: Level): Names
  {
    n => names(n) || (1 <= level <= 3 && (n == ChaosName(rule) || n == OrderName(rule)))
  }

  /** A first override whose body ranks below the rule keeps the environment stratified, one
      level deeper at most, at every chaos level. */
  lemma OverrideRanked(t: Table, rest: Chain, rule: string, ordered: Entry, level: Level, names: Names,
      rank: string -> nat)
    requires FirstTime([t] + rest, rule) && OneWord(rule) && names(rule)
    requires !names(ChaosName(rule)) && !names(OrderName(rule))
    requires Ranked([t] + rest, names, rank)
    requires forall m | EntryMentions(ordered, m) :: names(m) && rank(m) < rank(rule)
    ensures Ranked(Overridden(t, rest, rule, ordered, level), WithNew(names, rule, level), Reranked(rank, rule))
  {
    hide EntryMentions, Lookup, Overridden, Reranked, WithNew, Inherited, FirstTime, OneWord;
    hide ChaosName, OrderName, RuleArray;
    var c, d := [t] + rest, Overridden(t, rest, rule, ordered, level);
    forall n, m | WithNew(names, rule, level)(n) && Lookup(d, n).Some? && EntryMentions(Lookup(d, n).value, m)
      ensures WithNew(names, rule, level)(m) && Reranked(rank, rule)(m) < Reranked(rank, rule)(n)
    {
      OverriddenInherits(t, rest, rule, ordered, level, n);
      NewDrops(c, d, rule, ordered, level, names, rank, n, m);
    }
  }

  lemma NewDrops(c: Chain, d: Chain, rule: string, ordered: Entry, level: Level, names: Names, rank: string -> nat,
      n: string, m: string)
    requires OneWord(rule) && names(rule) && !names(ChaosName(rule)) && !names(OrderName(rule))
    requires Ranked(c, names, rank)
    requires forall m | EntryMentions(ordered, m) :: names(m) && rank(m) < rank(rule)
    requires WithNew(names, rule, level)(n) && Lookup(d, n).Some? && EntryMentions(Lookup(d, n).value, m)
    requires || Inherited(c, d, rule, ordered, n)
             || (n == rule && 1 <= level <= 3 && Lookup(d, n) == Some(Choice(RuleArray(level, rule))))
    ensures WithNew(names, rule, level)(m) && Reranked(rank, rule)(m) < Reranked(rank, rule)(n)
  {
    if Inherited(c, d, rule, ordered, n) {
      OldDrops(c, d, rule, ordered, level, names, rank, n, m);
    } else {
      ArrayDrops(level, rule, names, rank, m);
    }
  }

  lemma ArrayDrops(level: Level, rule: string, names: Names, rank: string -> nat, m: string)
    requires 1 <= level <= 3 && OneWord(rule) && EntryMentions(Choice(RuleArray(level, rule)), m)
    ensures WithNew(names, rule, level)(m) && Reranked(rank, rule)(m) < Reranked(rank, rule)(rule)
  {
    ArrayMentions(level, rule, m);
    NamesApart(rule);
  }

  /** Where an entry of the overridden environment comes from, the rule array aside. */
  predicate Inherited(c: Chain, d: Chain, rule: string, ordered: Entry, n: string)
  {
    || (n != ChaosName(rule) && n != OrderName(rule) && Lookup(d, n) == Lookup(c, n))
    || (Lookup(d, n) == Some(ordered) && (n == rule || n == OrderName(rule)))
    || (Lookup(d, n) == Lookup(c, rule) && n == ChaosName(rule))
    || Lookup(d, n) == None
  }

  lemma OverriddenInherits(t: Table, rest: Chain, rule: string, ordered: Entry, level: Level, n: string)
    requires FirstTime([t] + rest, rule)
    ensures var d := Overridden(t, rest, rule, ordered, level);
            || Inherited([t] + rest, d, rule, ordered, n)
            || (n == rule && 1 <= level <= 3 && Lookup(d, n) == Some(Choice(RuleArray(level, rule))))
  {
    OverriddenLookups(t, rest, rule, ordered, level);
  }

  /** Every mention other than the array's own keeps dropping after the shift of ranks. */
  lemma OldDrops(c: Chain, d: Chain, rule: string, ordered: Entry, level: Level, names: Names, rank: string -> nat,
      n: string, m: string)
    requires Ranked(c, names, rank) && names(rule) && !names(ChaosName(rule)) && !names(OrderName(rule))
    requires forall m | EntryMentions(ordered, m) :: names(m) && rank(m) < rank(rule)
    requires WithNew(names, rule, level)(n) && Lookup(d, n).Some? && EntryMentions(Lookup(d, n).value, m)
    requires Inherited(c, d, rule, ordered, n)
    ensures WithNew(names, rule, level)(m) && Reranked(rank, rule)(m) < Reranked(rank, rule)(n)
  {
    NamesApart(rule);
  }

  lemma ArrayMentions(level: Level, rule: string, m: string)
    requires 1 <= level <= 3 && OneWord(rule) && EntryMentions(Choice(RuleArray(level, rule)), m)
    ensures m == ChaosName(rule) || m == OrderName(rule)
  {
    ArrayElements(level, rule);
    var a := RuleArray(level, rule);
    var i :| 0 <= i < |a| && m in MentionsAll(Elements(a[i]));
    assert Elements(a[i])[1..] == [];
    assert MentionsAll(Elements(a[i])) == Mentions(Rule(a[i])) + {};
  }

  lemma OverrideSane(t: Table, rest: Chain, rule: string, ordered: Entry, level: Level, names: Names)
    requires FirstTime([t] + rest, rule) && OneWord(rule) && names(rule)
    requires Sane([t] + rest, names) && SaneEntry(ordered) && !ordered.Function?
    requires forall n | names(n) && Lookup([t] + rest, n).Some? :: !Lookup([t] + rest, n).value.Function?
    ensures var d := Overridden(t, rest, rule, ordered, level);
            && Sane(d, WithNew(names, rule, level))
            && forall n | WithNew(names, rule, level)(n) && Lookup(d, n).Some? :: !Lookup(d, n).value.Function?
  {
    OverriddenLookups(t, rest, rule, ordered, level);
    if 1 <= level <= 3 { ArraySane(level, rule); }
  }

  lemma ArraySane(level: Level, rule: string)
    requires 1 <= level <= 3 && OneWord(rule)
    ensures SaneEntry(Choice(RuleArray(level, rule)))
  {
    ArrayElements(level, rule);
    var a := RuleArray(level, rule);
    forall x | x in a ensures SaneAll(Elements(x)) {
      var i :| 0 <= i < |a| && a[i] == x;
      assert Elements(a[i]) == [Rule(a[i])];
    }
  }

  /* --- Properties closed under unfolding --- */

  /** J says the same of the rule and of its two new names. */
  ghost predicate Shared(J: Meaning, rule: string)
  {
    forall b :: J(ChaosName(rule), b) == J(rule, b) && J(OrderName(rule), b) == J(rule, b)
  }

  lemma OverrideClosed(t: Table, rest: Chain, rule: string, ordered: Entry, level: Level, names: Names, J: Meaning)
    requires FirstTime([t] + rest, rule) && OneWord(rule) && names(rule)
    requires !names(ChaosName(rule)) && !names(OrderName(rule))
    requires Closed([t] + rest, names, J) && Shared(J, rule)
    requires forall b | InEntry(J, ordered, b) :: J(rule, b)
    ensures Closed(Overridden(t, rest, rule, ordered, level), WithNew(names, rule, level), J)
  {
    var c, d := [t] + rest, Overridden(t, rest, rule, ordered, level);
    OverriddenLookups(t, rest, rule, ordered, level);
    NamesApart(rule);
    forall n, b | WithNew(names, rule, level)(n) && InBody(d, J, n, b) ensures J(n, b) {
      if n == rule && 1 <= level <= 3 {
        ArrayMeaning(J, level, rule, b);
      } else if n == ChaosName(rule) && 1 <= level <= 3 {
        assert InBody(c, J, rule, b);
      } else if n == OrderName(rule) && 1 <= level <= 3 {
        assert InEntry(J, ordered, b);
      } else if n == rule && level == 0 {
        assert InEntry(J, ordered, b);
      } else {
        assert InBody(c, J, n, b);
      }
    }
  }
}
