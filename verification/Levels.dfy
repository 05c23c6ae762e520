/** One rule chaos level beside another: levels 1 to 3 build the same packets, among them every packet
    of levels 0 and 4; and what the size field says at each level. */
module Levels {
  import opened Octets
  import opened CText
  import opened Abnf
  import opened AbnfPrint
  import opened Language
  import opened Decoder
  import opened Termination
  import opened Override
  import opened Strata
  import opened Assembly
  import opened AmqpRules
  import opened AmqpGrammar
  import opened AmqpBounds
  import opened AmqpMeaning
  import opened Builders
  import opened OrderlyPackets

  /* --- Heights --- */

  lemma RankedReaches(c: Chain, names: Names, rank: string -> nat)
    requires Ranked(c, names, rank)
    ensures Reaches(c, names)
  {
  }

  /** What nests no deeper than the ranks say. */
  ghost function ByRank(c: Chain, rank: string -> nat): Meaning
  {
    (n, b) => InRule(c, n, b, rank(n) + 1)
  }

  lemma BelowRank(c: Chain, names: Names, rank: string -> nat, n: string, b: seq<byte>)
    requires Ranked(c, names, rank) && names(n) && Lookup(c, n).Some?
    requires InEntry(ByRank(c, rank), Lookup(c, n).value, b)
    ensures InRule(c, n, b, rank(n) + 1)
  {
    var lower: Names := k => names(k) && rank(k) < rank(n);
    forall k, x | lower(k) && ByRank(c, rank)(k, x) ensures Stage(c, rank(n))(k, x) {
      StageMonotone(c, rank(k) + 1, rank(n));
      assert Stage(c, rank(k) + 1)(k, x);
    }
    EntryMonotone(lower, ByRank(c, rank), Stage(c, rank(n)), Lookup(c, n).value, b);
  }

  lemma ByRankClosed(c: Chain, names: Names, rank: string -> nat)
    requires Ranked(c, names, rank)
    ensures Closed(c, names, ByRank(c, rank))
  {
    hide InEntry, Ranked, Lookup;
    forall n, b | names(n) && InBody(c, ByRank(c, rank), n, b) ensures ByRank(c, rank)(n, b) {
      if Lookup(c, n).Some? { BelowRank(c, names, rank, n, b); }
      assert InRule(c, n, b, rank(n) + 1);
    }
  }

  /** No derivation need nest deeper than the rank of its rule. */
  lemma RankedHeight(c: Chain, names: Names, rank: string -> nat, n: string, b: seq<byte>, h: nat)
    requires Ranked(c, names, rank) && names(n) && InLanguage(c, n, b) && rank(n) < h
    ensures InRule(c, n, b, h)
  {
    hide Ranked, InBody, InLanguage, InRule, Stage;
    RankedReaches(c, names, rank);
    ByRankClosed(c, names, rank);
    LeastSolution(c, names, ByRank(c, rank));
    assert Whole(c)(n, b) && ByRank(c, rank)(n, b);
    StageMonotone(c, rank(n) + 1, h);
    StageIs(c, rank(n) + 1);
    StageIs(c, h);
  }

  /* --- One environment in the shadow of another --- */

  /** The second environment has the first one's rule, or a choice with it as one half, or a choice
      of the same two halves. */
  ghost predicate Shadows(c: Chain, d: Chain, n: string, to: Level)
  {
    || Lookup(d, n) == Lookup(c, n)
    || (1 <= to <= 3 && OneWord(n) && Plain(n) == n && Lookup(d, n) == Some(Choice(RuleArray(to, n)))
          && Lookup(d, OrderName(n)).Some?
          && (|| Lookup(d, OrderName(n)) == Lookup(c, n)
              || Lookup(d, ChaosName(n)) == Lookup(c, n)
              || exists from: Level :: 1 <= from <= 3 && Lookup(c, n) == Some(Choice(RuleArray(from, n)))))
  }

  /** Then it derives all the first one does. */
  lemma ShadowsIncluded(c: Chain, d: Chain, names: Names, level: Level)
    requires Reaches(c, names) && forall n | names(n) :: Shadows(c, d, n, level)
    ensures BelowOn(names, Whole(c), Whole(d))
  {
    forall n, b | names(n) && InBody(c, Whole(d), n, b) ensures Whole(d)(n, b) {
      ShadowDerives(c, d, n, level, b);
    }
    LeastSolution(c, names, Whole(d));
  }

  lemma ShadowDerives(c: Chain, d: Chain, n: string, to: Level, b: seq<byte>)
    requires Shadows(c, d, n, to) && InBody(c, Whole(d), n, b)
    ensures Whole(d)(n, b)
  {
    Unfold(d, n, b);
    if Lookup(d, n) != Lookup(c, n) {
      Unfold(d, OrderName(n), b);
      Unfold(d, ChaosName(n), b);
      ArrayMeaning(Whole(d), to, n, b);
      if from: Level :| 1 <= from <= 3 && Lookup(c, n) == Some(Choice(RuleArray(from, n))) {
        ArrayMeaning(Whole(d), from, n, b);
      }
    }
  }

  /** A rule that is still to be overridden is the same on both sides. */
  lemma StillEqual(c: Chain, d: Chain, rule: string, to: Level)
    requires Shadows(c, d, rule, to) && FirstTime(d, rule)
    ensures Lookup(d, rule) == Lookup(c, rule)
  {
  }

  /** A first override at any level on the one side and at a level of 1 to 3 on the other. */
  lemma OverrideShadows(t: Table, base: Chain, u: Table, base': Chain, rule: string, e: Entry, from: Level, to: Level)
    requires 1 <= to <= 3 && FirstTime([t] + base, rule) && FirstTime([u] + base', rule)
    requires OneWord(rule) && Plain(rule) == rule && Shadows([t] + base, [u] + base', rule, to)
    ensures var c, d := Overridden(t, base, rule, e, from), Overridden(u, base', rule, e, to);
            && Shadows(c, d, rule, to)
            && (1 <= from <= 3 ==> Shadows(c, d, ChaosName(rule), to) && Shadows(c, d, OrderName(rule), to))
  {
    StillEqual([t] + base, [u] + base', rule, to);
    OverriddenLookups(t, base, rule, e, from);
    OverriddenLookups(u, base', rule, e, to);
    hide Overridden, RuleArray, Plain, ChaosName, OrderName;
  }

  /** It leaves other rules as they were. */
  lemma OthersShadow(t: Table, base: Chain, u: Table, base': Chain, rule: string, e: Entry, from: Level, to: Level,
      n: string)
    requires 1 <= to <= 3 && FirstTime([t] + base, rule) && FirstTime([u] + base', rule) && Plain(rule) == rule
    requires !Own(rule, n) && Shadows([t] + base, [u] + base', n, to)
    ensures Shadows(Overridden(t, base, rule, e, from), Overridden(u, base', rule, e, to), n, to)
  {
    OverriddenLookups(t, base, rule, e, from);
    OverriddenLookups(u, base', rule, e, to);
    NewNamesDiffer(n, rule);
    hide Overridden, RuleArray, Plain, ChaosName, OrderName;
    var c, d := Overridden(t, base, rule, e, from), Overridden(u, base', rule, e, to);
    assert Lookup(c, n) == Lookup([t] + base, n) && Lookup(d, n) == Lookup([u] + base', n);
  }

  lemma NewNamesDiffer(n: string, rule: string)
    requires n != rule && Plain(rule) == rule
    ensures OrderName(n) != rule && OrderName(n) != ChaosName(rule) && OrderName(n) != OrderName(rule)
    ensures ChaosName(n) != rule && ChaosName(n) != ChaosName(rule) && ChaosName(n) != OrderName(rule)
  {
    PlainOfNew(rule);
    PlainOfNew(n);
    NamesApart(n);
    NamesApart(rule);
  }

  /* --- Operations side by side --- */

  /** The two environments after some operations: each as good as the base, the second in front of
      everything the first derives. */
  ghost predicate Follows(c: Chain, L: Ledger, d: Chain, M: Ledger, s: Basis, to: Level, pending: seq<string>)
  {
    Holds(c, L, s, pending) && Holds(d, M, s, pending) && forall n | L.names(n) :: Shadows(c, d, n, to)
  }

  lemma OverrideFollows(t: Table, base: Chain, L: Ledger, u: Table, base': Chain, M: Ledger, rule: string, e: Entry,
      s: Basis, from: Level, to: Level, pending: seq<string>)
    requires 1 <= to <= 3 && Follows([t] + base, L, [u] + base', M, s, to, [rule] + pending)
    requires Distinct([rule] + pending) && RuleFits(rule, s) && EntryFits(rule, e, s)
    ensures Follows(Overridden(t, base, rule, e, from), Advance(L, rule, from), Overridden(u, base', rule, e, to),
                    Advance(M, rule, to), s, to, pending)
  {
    hide Shadows, Distinct, EntryFits, Overridden, Plain, Lookup, Good;
    OverrideHolds(t, base, rule, e, from, L, s, pending);
    OverrideHolds(u, base', rule, e, to, M, s, pending);
    assert ([rule] + pending)[0] == rule;
    assert Free([t] + base, L, rule) && Free([u] + base', M, rule);
    hide Holds;
    OverrideShadows(t, base, u, base', rule, e, from, to);
    forall n | Advance(L, rule, from).names(n)
      ensures Shadows(Overridden(t, base, rule, e, from), Overridden(u, base', rule, e, to), n, to)
    {
      if !Own(rule, n) {
        OthersShadow(t, base, u, base', rule, e, from, to, n);
      }
    }
  }

  /** Whatever the first environment decodes, the second decodes on some tape. */
  lemma DecodeFollows(c: Chain, L: Ledger, d: Chain, M: Ledger, s: Basis, to: Level, pending: seq<string>,
      rule: string, tape: Tape, fuel: nat) returns (tape': Tape)
    requires Follows(c, L, d, M, s, to, pending) && s.names(rule) && s.rank(rule) + M.depth < fuel
    requires DecodeRule(c, rule, tape, fuel).Ok?
    ensures RuleBy(d, rule, DecodeRule(c, rule, tape, fuel).octets, fuel, tape')
  {
    hide Shadows, DecodeRule, Plain, Lookup, InRule, Stage, InLanguage, Ranked, Sane, Closed;
    var b := DecodeRule(c, rule, tape, fuel).octets;
    DecodedWhole(c, rule, tape, fuel);
    RankedReaches(c, L.names, L.rank);
    ShadowsIncluded(c, d, L.names, to);
    assert Whole(c)(rule, b) && Whole(d)(rule, b);
    RankedHeight(d, M.names, M.rank, rule, b, fuel);
    tape' := RuleTape(d, rule, b, fuel);
  }

  lemma FreezeRuns(op: Op, level: Level, u: Table, base: Chain, d: seq<byte>, tape: Tape, fuel: nat)
    requires op.Freezing? && RuleBy([u] + base, op.rule, d, fuel, tape)
    ensures forall more: Tape :: RunOp(op, level, u, base, tape + more, fuel)
                              == Done(Frozen2(u, base, op.rule, d, op.lengthRule, op.size, level), more)
  {
    hide DecodeRule, Frozen2;
  }

  lemma DecodedFits(rule: string, b: seq<byte>, c: Chain, L: Ledger, d: Chain, M: Ledger, s: Basis, to: Level,
      pending: seq<string>, tape: Tape, fuel: nat)
    requires Follows(c, L, d, M, s, to, pending) && s.names(rule) && s.rank(rule) + M.depth < fuel
    requires DecodeRule(c, rule, tape, fuel).Ok? && b == DecodeRule(c, rule, tape, fuel).octets
    ensures s.J(rule, b)
  {
    hide Shadows, DecodeRule, Plain, Lookup, InRule, Stage, InLanguage, Ranked, Sane, Closed;
    DecodedWhole(c, rule, tape, fuel);
    RankedReaches(c, L.names, L.rank);
    LeastSolution(c, L.names, s.J);
    assert Whole(c)(rule, b);
  }

  lemma FreezeFollows(t: Table, base: Chain, L: Ledger, u: Table, base': Chain, M: Ledger, rule: string, d: seq<byte>,
      lengthRule: string, size: nat, s: Basis, from: Level, to: Level, pending: seq<string>)
    requires 1 <= to <= 3 && Follows([t] + base, L, [u] + base', M, s, to, [rule, lengthRule] + pending)
    requires Distinct([rule, lengthRule] + pending) && OpFits(Freezing(rule, lengthRule, size), s) && s.J(rule, d)
    ensures Follows([Frozen2(t, base, rule, d, lengthRule, size, from)] + base,
                    Advance(Advance(L, rule, from), lengthRule, from),
                    [Frozen2(u, base', rule, d, lengthRule, size, to)] + base',
                    Advance(Advance(M, rule, to), lengthRule, to), s, to, pending)
  {
    hide Follows, RuleFits, EntryFits, Overwrite, LengthOctets;
    var n := LengthOctets(|d|, size);
    FrozenFits(rule, d, s);
    FrozenFits(lengthRule, n, s);
    assert [rule, lengthRule] + pending == [rule] + ([lengthRule] + pending);
    DistinctTail([rule, lengthRule] + pending);
    assert ([rule, lengthRule] + pending)[1..] == [lengthRule] + pending;
    OverrideFollows(t, base, L, u, base', M, rule, Frozen(d), s, from, to, [lengthRule] + pending);
    OverrideFollows(Overwrite(t, [t] + base, rule, Frozen(d), from), base, Advance(L, rule, from),
                    Overwrite(u, [u] + base', rule, Frozen(d), to), base', Advance(M, rule, to),
                    lengthRule, Frozen(n), s, from, to, pending);
  }

  /** What one operation does at one level, levels 1 to 3 can do on some tape: the same octets are
      frozen, and the second environment stays in front of the first. */
  lemma OpFollows(op: Op, from: Level, to: Level, t: Table, base: Chain, tape: Tape, L: Ledger,
                  u: Table, base': Chain, M: Ledger, s: Basis, pending: seq<string>, fuel: nat)
    returns (tape': Tape, u': Table, L': Ledger, M': Ledger)
    requires 1 <= to <= 3 && Follows([t] + base, L, [u] + base', M, s, to, RulesOf(op) + pending)
    requires Distinct(RulesOf(op) + pending) && OpFits(op, s) && RunOp(op, from, t, base, tape, fuel).Done?
    requires forall n | s.names(n) :: s.rank(n) + M.depth < fuel
    ensures Follows([RunOp(op, from, t, base, tape, fuel).head] + base, L', [u'] + base', M', s, to, pending)
    ensures forall more: Tape :: RunOp(op, to, u, base', tape' + more, fuel) == Done(u', more)
    ensures M'.depth == M.depth + |RulesOf(op)|
  {
    hide Follows, Distinct, RuleFits, EntryFits, DecodeRule, Overwrite, LengthOctets, RuleBy;
    match op
    case Overwriting(rule, entry) =>
      OverrideFollows(t, base, L, u, base', M, rule, entry, s, from, to, pending);
      tape', u' := [], Overwrite(u, [u] + base', rule, entry, to);
      L', M' := Advance(L, rule, from), Advance(M, rule, to);
      assert forall more: Tape :: [] + more == more;
    case Freezing(rule, lengthRule, size) =>
      RuleNamed(rule, s);
      tape' := DecodeFollows([t] + base, L, [u] + base', M, s, to, RulesOf(op) + pending, rule, tape, fuel);
      var d := DecodeRule([t] + base, rule, tape, fuel).octets;
      u' := Frozen2(u, base', rule, d, lengthRule, size, to);
      L', M' := Advance(Advance(L, rule, from), lengthRule, from), Advance(Advance(M, rule, to), lengthRule, to);
      DecodedFits(rule, d, [t] + base, L, [u] + base', M, s, to, RulesOf(op) + pending, tape, fuel);
      FreezeFollows(t, base, L, u, base', M, rule, d, lengthRule, size, s, from, to, pending);
      FreezeRuns(op, to, u, base', d, tape', fuel);
  }

  lemma RunStep(ops: seq<Op>, level: Level, u: Table, base: Chain, first: Tape, v: Table, others: Tape, w: Table,
      fuel: nat)
    requires ops != []
    requires forall more: Tape :: RunOp(ops[0], level, u, base, first + more, fuel) == Done(v, more)
    requires forall more: Tape :: RunOps(ops[1..], level, v, base, others + more, fuel) == Done(w, more)
    ensures forall more: Tape :: RunOps(ops, level, u, base, (first + others) + more, fuel) == Done(w, more)
  {
    hide RunOp;
    forall more: Tape ensures RunOps(ops, level, u, base, (first + others) + more, fuel) == Done(w, more) {
      assert (first + others) + more == first + (others + more);
      assert RunOp(ops[0], level, u, base, first + (others + more), fuel) == Done(v, others + more);
      assert RunOps(ops[1..], level, v, base, others + more, fuel) == Done(w, more);
    }
  }

  /** A whole list of operations that gets through at one level gets through at levels 1 to 3. */
  lemma {:induction false} RunFollows(ops: seq<Op>, from: Level, to: Level, t: Table, base: Chain, tape: Tape,
                                      L: Ledger, u: Table, base': Chain, M: Ledger, s: Basis, fuel: nat)
    returns (tape': Tape, u': Table, L': Ledger, M': Ledger)
    requires 1 <= to <= 3 && Follows([t] + base, L, [u] + base', M, s, to, RulesOfAll(ops))
    requires Distinct(RulesOfAll(ops)) && RunOps(ops, from, t, base, tape, fuel).Done?
    requires forall i | 0 <= i < |ops| :: OpFits(ops[i], s)
    requires forall n | s.names(n) :: s.rank(n) + M.depth + |RulesOfAll(ops)| < fuel
    ensures var p := RunOps(ops, from, t, base, tape, fuel); Follows([p.head] + base, L', [u'] + base', M', s, to, [])
    ensures forall more: Tape :: RunOps(ops, to, u, base', tape' + more, fuel) == Done(u', more)
    ensures M'.depth == M.depth + |RulesOfAll(ops)|
  {
    hide Follows, Distinct, OpFits, RunOp, RulesOf;
    tape', u', L', M' := [], u, L, M;
    if ops == [] {
      assert forall more: Tape :: [] + more == more;
    } else {
      var p, later := RunOp(ops[0], from, t, base, tape, fuel), RulesOfAll(ops[1..]);
      var first, v;
      first, v, L', M' := OpFollows(ops[0], from, to, t, base, tape, L, u, base', M, s, later, fuel);
      DistinctDrop(RulesOf(ops[0]), later);
      var others;
      others, u', L', M' := RunFollows(ops[1..], from, to, p.head, base, p.rest, L', v, base', M', s, fuel);
      tape' := first + others;
      RunStep(ops, to, u, base', first, v, others, u', fuel);
    }
  }

  /* --- The builders --- */

  lemma BaseShadows(from: Level, to: Level, n: string)
    requires n in BOUNDS
    ensures Shadows([map[]] + BaseChain(from), [map[]] + BaseChain(to), n, to)
  {
    hide BOUNDS, BaseChain, Special, Plain, CONNECTION, PROTOCOL, MakeEntry;
    BoundedOrdinary(n);
    BaseModels(from);
    BaseModels(to);
    EmptyHead(BaseChain(from));
    EmptyHead(BaseChain(to));
  }

  lemma StartFollows(ops: seq<Op>, from: Level, to: Level)
    requires FitOps(ops) && 1 <= to <= 3
    ensures Follows([map[]] + BaseChain(from), FirstLedger(), [map[]] + BaseChain(to), FirstLedger(), AmqpBasis(), to,
                    RulesOfAll(ops))
  {
    hide BOUNDS, BaseChain, FitOps, Holds, Shadows;
    Ready(ops, from);
    Ready(ops, to);
    forall n | n in BOUNDS ensures Shadows([map[]] + BaseChain(from), [map[]] + BaseChain(to), n, to) {
      BaseShadows(from, to, n);
    }
  }

  /** Every packet some tape yields at any level is yielded by some tape at levels 1 to 3: these three
      build the same packets, among them all that levels 0 and 4 build. */
  lemma StillBuilt(b: Builder, from: Level, to: Level, tape: Tape, fuel: nat) returns (tape': Tape)
    requires 1 <= to <= 3 && TOP + 11 <= fuel && Assemble(OpsOf(b), from, BaseChain(from), tape, fuel).Ok?
    ensures Assemble(OpsOf(b), to, BaseChain(to), tape', fuel)
         == Ok(Assemble(OpsOf(b), from, BaseChain(from), tape, fuel).octets, [])
  {
    hide BOUNDS, BaseChain, OpFits, RulesOfAll, Overridable, Distinct, RunOps, DecodeRule, Follows, OpsOf, Meant,
        RuleBy;
    var ops, base, base', s := OpsOf(b), BaseChain(from), BaseChain(to), AmqpBasis();
    OpsOfFit(b);
    StartFollows(ops, from, to);
    Upto6At();
    assert forall n | s.names(n) :: s.rank(n) <= TOP;
    var p := RunOps(ops, from, map[], base, tape, fuel);
    var at := FirstLedger();
    var first, u, L, M := RunFollows(ops, from, to, map[], base, tape, at, map[], base', at, s, fuel);
    var last := DecodeFollows([p.head] + base, L, [u] + base', M, s, to, [], "method", p.rest, fuel);
    tape' := first + last;
    Decoded([u] + base', "method", DecodeRule([p.head] + base, "method", p.rest, fuel).octets, fuel, last);
  }

  lemma Decoded(c: Chain, n: string, b: seq<byte>, fuel: nat, tape: Tape)
    requires RuleBy(c, n, b, fuel, tape)
    ensures DecodeRule(c, n, tape, fuel) == Ok(b, [])
  {
    assert tape + [] == tape;
  }

  /* --- The size field --- */

  lemma KeptByOverwrite(t: Table, base: Chain, rule: string, e: Entry, level: Level, n: string)
    requires Plain(rule) == rule && Plain(n) != rule
    ensures Lookup([Overwrite(t, [t] + base, rule, e, level)] + base, n) == Lookup([t] + base, n)
  {
    hide Overwrite;
    PlainOfNew(rule);
    assert !Own(rule, n);
    OverwriteElsewhere(t, [t] + base, rule, e, level, n);
    assert ([Overwrite(t, [t] + base, rule, e, level)] + base)[1..] == base && ([t] + base)[1..] == base;
  }

  predicate PlainRules(rules: seq<string>) { forall r | r in rules :: Plain(r) == r }

  /** Operations leave alone every name that does not stand for one of their rules. */
  lemma KeptByOp(op: Op, level: Level, t: Table, base: Chain, tape: Tape, fuel: nat, n: string)
    requires RunOp(op, level, t, base, tape, fuel).Done? && PlainRules(RulesOf(op)) && Plain(n) !in RulesOf(op)
    ensures Lookup([RunOp(op, level, t, base, tape, fuel).head] + base, n) == Lookup([t] + base, n)
  {
    hide Overwrite, DecodeRule, Lookup, Plain;
    match op
    case Overwriting(rule, entry) =>
      assert rule in RulesOf(op);
      KeptByOverwrite(t, base, rule, entry, level, n);
    case Freezing(rule, lengthRule, size) =>
      assert rule in RulesOf(op) && lengthRule in RulesOf(op);
      var d := DecodeRule([t] + base, rule, tape, fuel).octets;
      KeptByOverwrite(t, base, rule, Frozen(d), level, n);
      KeptByOverwrite(Overwrite(t, [t] + base, rule, Frozen(d), level), base, lengthRule,
                      Frozen(LengthOctets(|d|, size)), level, n);
  }

  lemma {:induction false} KeptByOps(ops: seq<Op>, level: Level, t: Table, base: Chain, tape: Tape, fuel: nat,
      n: string)
    requires RunOps(ops, level, t, base, tape, fuel).Done?
    requires PlainRules(RulesOfAll(ops)) && Plain(n) !in RulesOfAll(ops)
    ensures Lookup([RunOps(ops, level, t, base, tape, fuel).head] + base, n) == Lookup([t] + base, n)
    decreases |ops|
  {
    hide RunOp, Lookup, Plain, RulesOf;
    if ops != [] {
      var p := RunOp(ops[0], level, t, base, tape, fuel);
      assert PlainRules(RulesOf(ops[0])) && PlainRules(RulesOfAll(ops[1..]));
      KeptByOp(ops[0], level, t, base, tape, fuel, n);
      KeptByOps(ops[1..], level, p.head, base, p.rest, fuel, n);
    }
  }

  /** The last operation comes last. */
  lemma {:induction false} RunLast(ops: seq<Op>, level: Level, t: Table, base: Chain, tape: Tape, fuel: nat)
    requires ops != []
    ensures var p := RunOps(ops[..|ops| - 1], level, t, base, tape, fuel);
            RunOps(ops, level, t, base, tape, fuel)
            == if p.Stuck? then p else RunOp(ops[|ops| - 1], level, p.head, base, p.rest, fuel)
    decreases |ops|
  {
    hide RunOp;
    var p := RunOp(ops[0], level, t, base, tape, fuel);
    if |ops| == 1 {
      assert ops[..0] == [] && ops[1..] == [];
    } else if p.Done? {
      assert ops[1..][..|ops| - 2] == ops[..|ops| - 1][1..];
      RunLast(ops[1..], level, p.head, base, p.rest, fuel);
    }
  }

  /** After a freeze the length rule derives the length, the rule it had before, or either. */
  lemma FrozenLength(h: Table, base: Chain, rule: string, P: seq<byte>, lengthRule: string, size: nat, level: Level,
      b: seq<byte>)
    requires Plain(rule) == rule && Plain(lengthRule) == lengthRule && rule != lengthRule && OneWord(lengthRule)
    requires FirstTime([h] + base, lengthRule)
    requires Whole([Frozen2(h, base, rule, P, lengthRule, size, level)] + base)(lengthRule, b)
    ensures || (level < 4 && b == LengthOctets(|P|, size))
            || (level > 0 && InBody([h] + base, Whole([Frozen2(h, base, rule, P, lengthRule, size, level)] + base),
                                    lengthRule, b))
  {
    hide Overwrite, LengthOctets, Plain, Whole;
    var u := Overwrite(h, [h] + base, rule, Frozen(P), level);
    var e := Frozen(LengthOctets(|P|, size));
    var f := [Frozen2(h, base, rule, P, lengthRule, size, level)] + base;
    PlainOfNew(lengthRule);
    KeptByOverwrite(h, base, rule, Frozen(P), level, lengthRule);
    KeptByOverwrite(h, base, rule, Frozen(P), level, ChaosName(lengthRule));
    KeptByOverwrite(h, base, rule, Frozen(P), level, OrderName(lengthRule));
    OverriddenLookups(u, base, lengthRule, e, level);
    Unfolded(f, lengthRule, b);
    if 1 <= level <= 3 {
      ArrayMeaning(Whole(f), level, lengthRule, b);
      if Whole(f)(OrderName(lengthRule), b) { Unfolded(f, OrderName(lengthRule), b); }
      if Whole(f)(ChaosName(lengthRule), b) { Unfolded(f, ChaosName(lengthRule), b); }
    }
  }

  lemma {:induction false} SmallOctets(I: Meaning, x: string, k: nat, b: seq<byte>)
    requires (forall d | I(x, d) :: |d| == 1 && d[0] < 0xFF) && InTimes(I, Rule(x), k, b)
    ensures |b| == k && forall i | 0 <= i < k :: b[i] < 0xFF
  {
    if k > 0 {
      var j :| 0 <= j <= |b| && InElement(I, Rule(x), b[..j]) && InTimes(I, Rule(x), k - 1, b[j..]);
      assert I(x, b[..j]);
      SmallOctets(I, x, k - 1, b[j..]);
      assert b == b[..j] + b[j..];
    }
  }

  lemma SmallOctet(c: Chain, n: string, d: seq<byte>)
    requires Defines(c, n, [[HexTo([0x00], [0xFF])]]) && Whole(c)(n, d)
    ensures |d| == 1 && d[0] < 0xFF
  {
    hide Defines, InBody;
    var p := HexTo([0x00], [0xFF]);
    Unfolded(c, n, d);
    OnlyAlternative(c, Whole(c), n, [p], d);
    Alone(Whole(c), p, d);
    OctetRangeMeans(Whole(c), p, d);
  }

  /** Four decodings of OCTET: the upper bound of its range is never drawn. */
  lemma FourOctetsSmall(c: Chain, n: string, x: string, b: seq<byte>)
    requires Defines(c, n, [[Exactly(4, Named(x))]]) && Whole(c)(n, b)
    requires Defines(c, x, [[HexTo([0x00], [0xFF])]])
    ensures |b| == 4 && forall i | 0 <= i < 4 :: b[i] < 0xFF
  {
    hide Defines, InBody, Whole;
    var p := Exactly(4, Named(x));
    Unfolded(c, n, b);
    OnlyAlternative(c, Whole(c), n, [p], b);
    Alone(Whole(c), p, b);
    assert ElementOf(p) == Repeat(4, 4, Rule(x));
    var k: nat :| CountAllows(4, 4, k) && InTimes(Whole(c), Rule(x), k, b);
    forall d | Whole(c)(x, d) ensures |d| == 1 && d[0] < 0xFF { SmallOctet(c, x, d); }
    SmallOctets(Whole(c), x, k, b);
  }

  /** Where the size field of a frame comes from. */
  lemma SizeOfFrame(c: Chain, n: string, frame: string, props: string, payload: string, end: string, channel: string,
      size: string, b: seq<byte>)
    requires Defines(c, n, [[Named(frame)]])
    requires Defines(c, frame, [[Dec([1]), Named(props), Named(payload), Named(end)]])
    requires Defines(c, props, [[Named(channel), Named(size)]]) && Defines(c, channel, [[Hex([0x00, 0x00])]])
    requires Whole(c)(n, b) && forall s | Whole(c)(size, s) :: |s| == 4
    ensures |b| >= 7 && Whole(c)(size, b[3..7])
  {
    hide Defines, InBody, Whole, InElements, ElementsOf;
    WholeAlias(c, n, frame, b);
    Unfolded(c, frame, b);
    var ps := [Dec([1]), Named(props), Named(payload), Named(end)];
    OnlyAlternative(c, Whole(c), frame, ps, b);
    var w, x, y, z := Cut4(Whole(c), ps[0], ps[1], ps[2], ps[3], b);
    Unfolded(c, props, x);
    OnlyAlternative(c, Whole(c), props, [Named(channel), Named(size)], x);
    var u, v := Cut2(Whole(c), Named(channel), Named(size), x);
    WholeSymbol(c, channel, [0x00, 0x00], u);
    assert b == [1] + ([0, 0] + v) + y + z && |v| == 4;
    assert b[3..7] == v;
  }

  /** The rules a frame is made of, and those of its size field. */
  const FRAMING: set<string> :=
    {"method", "method-frame", "frame-properties", "channel", "long-uint", "OCTET"}

  lemma FramingApart()
    ensures FRAMING !! OVERRIDDEN
  {
  }

  lemma FramingBounded()
    ensures forall n | n in FRAMING :: n in BOUNDS
  {
    hide BOUNDS;
    Upto6At();
    Upto8At();
    Upto10At();
    Upto13At();
    Upto17At();
  }

  lemma RulesOverridden(b: Builder)
    ensures forall r | r in RulesOfAll(OpsOf(b)) :: r in OVERRIDDEN
  {
    hide RulesOfAll, StartOkOps, TuneOkOps, OpenOps, CloseOps, CloseOkOps;
    match b
    case ForStartOk => StartOkRules();
    case ForTuneOk(channelMax, frameMax) => TuneOkRules(channelMax, frameMax);
    case ForOpen => OpenRules();
    case ForClose => CloseRules();
    case ForCloseOk => CloseOkRules();
  }

  lemma EndsSealing(b: Builder)
    ensures OpsOf(b) != [] && OpsOf(b)[|OpsOf(b)| - 1] == Sealing()
  {
    hide Body;
  }

  /** The frame rules as abnf/ has them. */
  ghost predicate FrameRules(c: Chain)
  {
    && Defines(c, "method", [[Named("method-frame")]])
    && Defines(c, "method-frame",
         [[Dec([1]), Named("frame-properties"), Named("method-payload"), Named("frame-end")]])
    && Defines(c, "frame-properties", [[Named("channel"), Named("payload-size")]])
    && Defines(c, "channel", [[Hex([0x00, 0x00])]])
  }

  /** And those of a raw size field. */
  ghost predicate SizeRules(c: Chain)
  {
    && Defines(c, "long-uint", [[Exactly(4, Named("OCTET"))]])
    && Defines(c, "OCTET", [[HexTo([0x00], [0xFF])]])
  }

  ghost predicate RawSizeRule(c: Chain) { Defines(c, "payload-size", [[Named("long-uint")]]) }

  lemma BaseRules(base: Chain)
    requires IsBase(base)
    ensures FrameRules(base) && SizeRules(base) && RawSizeRule(base)
  {
    hide IsBase, Defines;
    AmqpGrammar.Method(base);
    MethodFrame(base);
    FrameProperties(base);
    Channel(base);
    PayloadSize(base);
    LongUint(base);
    OCTET(base);
  }

  lemma RulesKept(base: Chain, c: Chain)
    requires FrameRules(base) && SizeRules(base) && forall n | n in FRAMING :: Lookup(c, n) == Lookup(base, n)
    ensures FrameRules(c) && SizeRules(c)
  {
    hide Lookup, Means;
  }

  lemma RawKept(base: Chain, c: Chain)
    requires RawSizeRule(base) && Lookup(c, "payload-size") == Lookup(base, "payload-size")
    ensures RawSizeRule(c)
  {
    hide Lookup, Means;
  }

  /** The size field of "method" is a "payload-size". */
  lemma SizeInFrame(c: Chain, b: seq<byte>)
    requires FrameRules(c) && Whole(c)("method", b) && forall s | Whole(c)("payload-size", s) :: |s| == 4
    ensures |b| >= 7 && Whole(c)("payload-size", b[3..7])
  {
    hide Defines, Whole;
    SizeOfFrame(c, "method", "method-frame", "frame-properties", "method-payload", "frame-end", "channel",
                "payload-size", b);
  }

  /** The raw size field is four small octets. */
  lemma RawSize(h: Chain, c: Chain, b: seq<byte>)
    requires RawSizeRule(h) && SizeRules(c) && InBody(h, Whole(c), "payload-size", b)
    ensures |b| == 4 && forall i | 0 <= i < 4 :: b[i] < 0xFF
  {
    hide Defines, Whole, InBody;
    AliasMeans(h, Whole(c), "payload-size", "long-uint", b);
    FourOctetsSmall(c, "long-uint", "OCTET", b);
  }

  /** The payload a builder freezes last. */
  function FrozenPayload(ops: seq<Op>, level: Level, base: Chain, tape: Tape, fuel: nat): Outcome
    requires ops != []
  {
    match RunOps(ops[..|ops| - 1], level, map[], base, tape, fuel)
    case Stuck(why) => Fail(why)
    case Done(h, rest) => DecodeRule([h] + base, "method-payload", rest, fuel)
  }

  /** The length of the payload that was frozen, or four octets of the raw rule. */
  predicate SizeSays(level: Level, P: seq<byte>, size: seq<byte>)
  {
    || (level < 4 && size == BE(|P|, 4))
    || (level > 0 && |size| == 4 && forall i | 0 <= i < 4 :: size[i] < 0xFF)
  }

  lemma SealingRules()
    ensures RulesOf(Sealing()) == ["method-payload", "payload-size"]
  {
  }

  lemma RulesLast(ops: seq<Op>)
    requires ops != [] && ops[|ops| - 1] == Sealing()
    ensures RulesOfAll(ops) == RulesOfAll(ops[..|ops| - 1]) + ["method-payload", "payload-size"]
  {
    hide RulesOfAll, RulesOf, Sealing;
    SealingRules();
    assert ops == ops[..|ops| - 1] + [Sealing()];
    RulesAppend(ops[..|ops| - 1], [Sealing()]);
    RulesFrom([Sealing()], 0);
    NoRules();
    assert [Sealing()][0..] == [Sealing()] && [Sealing()][1..] == [] && RulesOf(Sealing()) + [] == RulesOf(Sealing());
  }

  lemma AllPlain(ops: seq<Op>)
    requires FitOps(ops)
    ensures PlainRules(RulesOfAll(ops))
  {
    hide BOUNDS, Plain, OpFits, RulesOfAll;
    forall r | r in RulesOfAll(ops) ensures Plain(r) == r {
      InBounds(r);
      PlainHere(r);
    }
  }

  lemma LastIsNew(rules: seq<string>, r: string, last: string)
    requires Distinct(rules + [r, last])
    ensures last !in rules
  {
    var all := rules + [r, last];
    assert all[|rules| + 1] == last;
    forall i | 0 <= i < |rules| ensures rules[i] != last {
      assert all[i] == rules[i];
    }
  }

  lemma SealNames()
    ensures Plain("method-payload") == "method-payload" && Plain("payload-size") == "payload-size"
    ensures "method-payload" != "payload-size" && OneWord("payload-size")
  {
    hide BOUNDS, Plain;
    Upto13At();
    Upto17At();
    PlainHere("method-payload");
    PlainHere("payload-size");
    assert |"method-payload"| != |"payload-size"|;
  }

  /** What the operations before the seal leave to the base environment. */
  lemma BeforeSeal(ops: seq<Op>, level: Level, base: Chain, tape: Tape, fuel: nat)
    requires FitOps(ops) && ops != [] && ops[|ops| - 1] == Sealing() && FirstTime(base, "payload-size")
    requires RunOps(ops[..|ops| - 1], level, map[], base, tape, fuel).Done?
    ensures var c := [RunOps(ops[..|ops| - 1], level, map[], base, tape, fuel).head] + base;
            Lookup(c, "payload-size") == Lookup(base, "payload-size") && FirstTime(c, "payload-size")
  {
    hide BOUNDS, Plain, OpFits, RulesOfAll, RunOps, Lookup, ChaosName, OrderName;
    var init, size := ops[..|ops| - 1], "payload-size";
    RulesLast(ops);
    AllPlain(ops);
    assert PlainRules(RulesOfAll(init));
    LastIsNew(RulesOfAll(init), "method-payload", size);
    SealNames();
    PlainOfNew(size);
    EmptyHead(base);
    KeptByOps(init, level, map[], base, tape, fuel, size);
    KeptByOps(init, level, map[], base, tape, fuel, ChaosName(size));
    KeptByOps(init, level, map[], base, tape, fuel, OrderName(size));
  }

  /** The frame rules stay as they are throughout. */
  lemma FramingKept(b: Builder, level: Level, base: Chain, tape: Tape, fuel: nat)
    requires RunOps(OpsOf(b), level, map[], base, tape, fuel).Done?
    ensures var c := [RunOps(OpsOf(b), level, map[], base, tape, fuel).head] + base;
            forall n | n in FRAMING :: Lookup(c, n) == Lookup(base, n)
  {
    hide BOUNDS, Plain, OpFits, RulesOfAll, RunOps, Lookup, OpsOf, FRAMING, OVERRIDDEN;
    OpsOfFit(b);
    AllPlain(OpsOf(b));
    RulesOverridden(b);
    FramingApart();
    FramingBounded();
    EmptyHead(base);
    forall n | n in FRAMING
      ensures Lookup([RunOps(OpsOf(b), level, map[], base, tape, fuel).head] + base, n) == Lookup(base, n)
    {
      PlainHere(n);
      KeptByOps(OpsOf(b), level, map[], base, tape, fuel, n);
    }
  }

  /** The seal is the last operation. */
  lemma SealRuns(ops: seq<Op>, level: Level, base: Chain, tape: Tape, fuel: nat)
    requires ops != [] && ops[|ops| - 1] == Sealing() && RunOps(ops, level, map[], base, tape, fuel).Done?
    ensures var p, P := RunOps(ops[..|ops| - 1], level, map[], base, tape, fuel),
                        FrozenPayload(ops, level, base, tape, fuel);
            && p.Done? && P.Ok?
            && RunOps(ops, level, map[], base, tape, fuel).head
               == Frozen2(p.head, base, "method-payload", P.octets, "payload-size", 4, level)
  {
    hide RunOps, DecodeRule, Frozen2;
    RunLast(ops, level, map[], base, tape, fuel);
  }

  /** What the base environment is asked for below. */
  ghost predicate SealBase(base: Chain)
  {
    FrameRules(base) && SizeRules(base) && RawSizeRule(base) && FirstTime(base, "payload-size")
  }

  lemma BaseSeals(level: Level)
    ensures SealBase(BaseChain(level))
  {
    hide BaseChain, IsBase, BOUNDS, FrameRules, SizeRules, RawSizeRule;
    BaseModels(level);
    BaseRules(BaseChain(level));
    MethodOpen();
    FreshNames(BaseChain(level), "payload-size");
  }

  /** Whatever size octets the finished environment derives. */
  lemma SealedSize(b: Builder, level: Level, base: Chain, tape: Tape, fuel: nat, s: seq<byte>)
    requires SealBase(base) && RunOps(OpsOf(b), level, map[], base, tape, fuel).Done?
    requires Whole([RunOps(OpsOf(b), level, map[], base, tape, fuel).head] + base)("payload-size", s)
    ensures OpsOf(b) != [] && FrozenPayload(OpsOf(b), level, base, tape, fuel).Ok?
    ensures |FrozenPayload(OpsOf(b), level, base, tape, fuel).octets| < 0x1_0000_0000 ==>
              SizeSays(level, FrozenPayload(OpsOf(b), level, base, tape, fuel).octets, s)
  {
    hide FitOps, Plain, OpFits, RulesOfAll, RunOps, Lookup, OpsOf, Whole, Frozen2, FrozenPayload, LengthOctets,
        InBody, FirstTime, FRAMING, FrameRules, SizeRules, RawSizeRule;
    var ops := OpsOf(b);
    OpsOfFit(b);
    EndsSealing(b);
    SealRuns(ops, level, base, tape, fuel);
    BeforeSeal(ops, level, base, tape, fuel);
    FramingKept(b, level, base, tape, fuel);
    SealNames();
    var h := RunOps(ops[..|ops| - 1], level, map[], base, tape, fuel).head;
    var c := [RunOps(ops, level, map[], base, tape, fuel).head] + base;
    var P := FrozenPayload(ops, level, base, tape, fuel).octets;
    FrozenLength(h, base, "method-payload", P, "payload-size", 4, level, s);
    Packets.FourOctets(|P|);
    if InBody([h] + base, Whole(c), "payload-size", s) {
      RulesKept(base, c);
      RawKept(base, [h] + base);
      RawSize([h] + base, c, s);
    }
  }

  lemma SizeOfPacket(c: Chain, level: Level, P: seq<byte>, octets: seq<byte>)
    requires FrameRules(c) && Whole(c)("method", octets)
    requires forall s | Whole(c)("payload-size", s) :: SizeSays(level, P, s)
    ensures |octets| >= 7 && SizeSays(level, P, octets[3..7])
  {
    hide FrameRules, Whole, BE;
    forall s | Whole(c)("payload-size", s) ensures |s| == 4 {
      assert SizeSays(level, P, s);
    }
    SizeInFrame(c, octets);
  }

  lemma FinishedRules(b: Builder, level: Level, base: Chain, tape: Tape, fuel: nat)
    requires SealBase(base) && RunOps(OpsOf(b), level, map[], base, tape, fuel).Done?
    ensures FrameRules([RunOps(OpsOf(b), level, map[], base, tape, fuel).head] + base)
  {
    hide RunOps, OpsOf, FRAMING, Lookup, FrameRules, SizeRules, RawSizeRule, FirstTime;
    FramingKept(b, level, base, tape, fuel);
    RulesKept(base, [RunOps(OpsOf(b), level, map[], base, tape, fuel).head] + base);
  }

  lemma PayloadLength(b: Builder, level: Level, tape: Tape, fuel: nat)
    requires TOP + 11 <= fuel && OpsOf(b) != []
    ensures var P := FrozenPayload(OpsOf(b), level, BaseChain(level), tape, fuel);
            P.Ok? ==> 4 <= |P.octets| <= 156
  {
    hide BOUNDS, BaseChain, FitOps, RunOps, OpsOf, DecodeRule, Meant;
    var ops := OpsOf(b);
    var k := |ops| - 1;
    OpsOfFit(b);
    FitPrefix(ops, k);
    Upto17At();
    MeantLength("method-payload", 8, 4, 156);
    var p := RunOps(ops[..k], level, map[], BaseChain(level), tape, fuel);
    DecodesMeant(ops[..k], level, tape, "method-payload", if p.Done? then p.rest else tape, fuel);
  }

  /** The size field of every packet, at every level and on every tape: at level 0 the length of the
      payload that was frozen, at level 4 four octets of OCTET, one of the two in between. */
  lemma EverySize(b: Builder, level: Level, tape: Tape, fuel: nat)
    requires TOP + 11 <= fuel
    ensures OpsOf(b) != []
    ensures var r := Assemble(OpsOf(b), level, BaseChain(level), tape, fuel);
            var P := FrozenPayload(OpsOf(b), level, BaseChain(level), tape, fuel);
            r.Ok? ==> P.Ok? && 4 <= |P.octets| <= 156 && |r.octets| >= 7 && SizeSays(level, P.octets, r.octets[3..7])
  {
    hide BaseChain, RunOps, OpsOf, DecodeRule, Whole, FrozenPayload, SizeSays, SealBase, FrameRules;
    var base := BaseChain(level);
    EndsSealing(b);
    var r, p := Assemble(OpsOf(b), level, base, tape, fuel), RunOps(OpsOf(b), level, map[], base, tape, fuel);
    if r.Ok? {
      var c := [p.head] + base;
      BaseSeals(level);
      DecodedWhole(c, "method", p.rest, fuel);
      SealRuns(OpsOf(b), level, base, tape, fuel);
      PayloadLength(b, level, tape, fuel);
      var P := FrozenPayload(OpsOf(b), level, base, tape, fuel).octets;
      forall s | Whole(c)("payload-size", s) ensures SizeSays(level, P, s) {
        SealedSize(b, level, base, tape, fuel, s);
      }
      FinishedRules(b, level, base, tape, fuel);
      SizeOfPacket(c, level, P, r.octets);
    }
  }
}
