/** How a packet is assembled: a fresh table in front of the base environment, a list of overrides
    and freezes, then one decoding of "method" (fuzzer/Connection.c, fuzzer/Grammar_Interface.c). */
module Assembly {
  import opened Octets
  import opened Language
  import opened Decoder
  import opened Termination
  import opened Override
  import opened Strata

  /** overwrite_rule_with_chaos with an ordered rule, or overwrite_rule_set_length. */
  datatype Op =
    | Overwriting(rule: string, entry: Entry)
    | Freezing(rule: string, lengthRule: string, size: nat)

  datatype Progress = Done(head: Table, rest: Tape) | Stuck(why: Failure)

  function Zeros(n: nat): (s: seq<byte>)
    ensures |s| == n
  {
    seq(n, _ => 0)
  }

  /** The zeroed buffer int_in_char writes a length to; a buffer under four octets stays zero. */
  function LengthOctets(n: nat, size: nat): (s: seq<byte>)
    ensures |s| == size
  {
    if size < 4 then Zeros(size) else BE(n % 0x1_0000_0000, 4) + Zeros(size - 4)
  }

  /** The two overrides a freeze ends with. */
  function Frozen2(t: Table, base: Chain, rule: string, d: seq<byte>, lengthRule: string, size: nat,
      level: Level): Table
  {
    var u := Overwrite(t, [t] + base, rule, Frozen(d), level);
    Overwrite(u, [u] + base, lengthRule, Frozen(LengthOctets(|d|, size)), level)
  }

  function RunOp(op: Op, level: Level, t: Table, base: Chain, tape: Tape, fuel: nat): Progress
  {
    match op
    case Overwriting(rule, entry) => Done(Overwrite(t, [t] + base, rule, entry, level), tape)
    case Freezing(rule, lengthRule, size) =>
      match DecodeRule([t] + base, rule, tape, fuel)
      case Fail(why) => Stuck(why)
      case Ok(d, rest) => Done(Frozen2(t, base, rule, d, lengthRule, size, level), rest)
  }

  function RunOps(ops: seq<Op>, level: Level, t: Table, base: Chain, tape: Tape, fuel: nat): Progress
  {
    if ops == [] then Done(t, tape)
    else match RunOp(ops[0], level, t, base, tape, fuel)
      case Stuck(why) => Stuck(why)
      case Done(u, rest) => RunOps(ops[1..], level, u, base, rest, fuel)
  }

  /** The whole builder: run the operations on an empty table, then decode "method". */
  function Assemble(ops: seq<Op>, level: Level, base: Chain, tape: Tape, fuel: nat): Outcome
  {
    match RunOps(ops, level, map[], base, tape, fuel)
    case Stuck(why) => Fail(why)
    case Done(head, rest) => DecodeRule([head] + base, "method", rest, fuel)
  }

  function RulesOf(op: Op): seq<string>
  {
    match op
    case Overwriting(rule, _) => [rule]
    case Freezing(rule, lengthRule, _) => [rule, lengthRule]
  }

  function RulesOfAll(ops: seq<Op>): seq<string>
  {
    if ops == [] then [] else RulesOf(ops[0]) + RulesOfAll(ops[1..])
  }

  predicate Distinct(rules: seq<string>)
  {
    forall i, j | 0 <= i < j < |rules| :: rules[i] != rules[j]
  }

  /* --- The numbers a list of operations asks for --- */

  /** The table an operation leaves, but for the octets it freezes. */
  function Settle(op: Op, level: Level, t: Table, base: Chain): Table
  {
    match op
    case Overwriting(rule, entry) => Overwrite(t, [t] + base, rule, entry, level)
    case Freezing(rule, lengthRule, size) => Frozen2(t, base, rule, [], lengthRule, size, level)
  }

  function Settled(ops: seq<Op>, level: Level, t: Table, base: Chain): Table
  {
    if ops == [] then t else Settled(ops[1..], level, Settle(ops[0], level, t, base), base)
  }

  function NeedOf(op: Op, t: Table, base: Chain, fuel: nat): nat
  {
    match op
    case Overwriting(_, _) => 0
    case Freezing(rule, _, _) => DrawsRule([t] + base, rule, fuel)
  }

  /** Computed from the rules alone. */
  function Budget(ops: seq<Op>, level: Level, t: Table, base: Chain, fuel: nat): nat
  {
    if ops == [] then 0
    else NeedOf(ops[0], t, base, fuel) + Budget(ops[1..], level, Settle(ops[0], level, t, base), base, fuel)
  }

  /** The budget of a whole builder: its operations, then the final decoding. */
  function Draws(ops: seq<Op>, level: Level, base: Chain, fuel: nat): nat
  {
    Budget(ops, level, map[], base, fuel) + DrawsRule([Settled(ops, level, map[], base)] + base, "method", fuel)
  }

  /** Tables that differ in frozen octets only. */
  ghost predicate AlikeTables(t: Table, u: Table)
  {
    t.Keys == u.Keys && forall k | k in t :: t[k] == u[k] || (t[k].Frozen? && u[k].Frozen?)
  }

  lemma AlikeItself(t: Table)
    ensures AlikeTables(t, t)
  {
  }

  lemma AlikeOn(t: Table, u: Table, v: Table)
    requires AlikeTables(t, u) && AlikeTables(u, v)
    ensures AlikeTables(t, v)
  {
  }

  lemma AlikeChains(t: Table, u: Table, base: Chain)
    requires AlikeTables(t, u)
    ensures Alike([t] + base, [u] + base)
  {
    Shadowing(t);
    Shadowing(u);
  }

  lemma OverwriteAlike(t: Table, u: Table, base: Chain, rule: string, x: Entry, y: Entry, level: Level)
    requires AlikeTables(t, u) && (x == y || (x.Frozen? && y.Frozen?))
    ensures AlikeTables(Overwrite(t, [t] + base, rule, x, level), Overwrite(u, [u] + base, rule, y, level))
  {
    AlikeChains(t, u, base);
    assert AlikeEntries(Lookup([t] + base, rule), Lookup([u] + base, rule));
    hide Lookup;
  }

  lemma FreezeAlike(t: Table, base: Chain, rule: string, d: seq<byte>, lengthRule: string, size: nat, level: Level)
    ensures AlikeTables(Frozen2(t, base, rule, d, lengthRule, size, level),
                        Frozen2(t, base, rule, [], lengthRule, size, level))
  {
    hide Overwrite, LengthOctets, AlikeTables;
    AlikeItself(t);
    OverwriteAlike(t, t, base, rule, Frozen(d), Frozen([]), level);
    OverwriteAlike(Overwrite(t, [t] + base, rule, Frozen(d), level), Overwrite(t, [t] + base, rule, Frozen([]), level),
                   base, lengthRule, Frozen(LengthOctets(|d|, size)), Frozen(LengthOctets(0, size)), level);
  }

  lemma SettleAlike(op: Op, level: Level, t: Table, u: Table, base: Chain, fuel: nat)
    requires AlikeTables(t, u)
    ensures AlikeTables(Settle(op, level, t, base), Settle(op, level, u, base))
    ensures NeedOf(op, t, base, fuel) == NeedOf(op, u, base, fuel)
  {
    hide Overwrite, LengthOctets, AlikeTables, Alike, DrawsRule;
    match op
    case Overwriting(rule, entry) => OverwriteAlike(t, u, base, rule, entry, entry, level);
    case Freezing(rule, lengthRule, size) =>
      AlikeChains(t, u, base);
      DrawsRuleAlike([t] + base, [u] + base, rule, fuel);
      var x, n := Frozen([]), Frozen(LengthOctets(0, size));
      OverwriteAlike(t, u, base, rule, x, x, level);
      OverwriteAlike(Overwrite(t, [t] + base, rule, x, level), Overwrite(u, [u] + base, rule, x, level), base,
                     lengthRule, n, n, level);
  }

  /** Budgets do not depend on frozen octets, so they can be had before anything is decoded. */
  lemma {:induction false} BudgetAlike(ops: seq<Op>, level: Level, t: Table, u: Table, base: Chain, fuel: nat)
    requires AlikeTables(t, u)
    ensures Budget(ops, level, t, base, fuel) == Budget(ops, level, u, base, fuel)
    ensures AlikeTables(Settled(ops, level, t, base), Settled(ops, level, u, base))
    decreases |ops|
  {
    hide AlikeTables, Settle, NeedOf;
    if ops != [] {
      SettleAlike(ops[0], level, t, u, base, fuel);
      BudgetAlike(ops[1..], level, Settle(ops[0], level, t, base), Settle(ops[0], level, u, base), base, fuel);
    }
  }

  /* --- What every operation keeps --- */

  /** The static side: the names, ranks and meaning the base environment is good for. */
  datatype Basis = Basis(names: Names, rank: string -> nat, J: Meaning)

  /** The moving side: names and ranks after some overrides, `depth` of them. */
  datatype Ledger = Ledger(names: Names, rank: string -> nat, depth: nat)

  ghost predicate RuleFits(rule: string, s: Basis)
  {
    OneWord(rule) && Plain(rule) == rule && s.names(rule) && Shared(s.J, rule)
  }

  ghost predicate EntryFits(rule: string, e: Entry, s: Basis)
  {
    && SaneEntry(e) && !e.Function?
    && (forall m | EntryMentions(e, m) :: s.names(m) && s.rank(m) < s.rank(rule))
    && (forall b | InEntry(s.J, e, b) :: s.J(rule, b))
  }

  ghost predicate OpFits(op: Op, s: Basis)
  {
    match op
    case Overwriting(rule, entry) => RuleFits(rule, s) && EntryFits(rule, entry, s)
    case Freezing(rule, lengthRule, size) =>
      RuleFits(rule, s) && RuleFits(lengthRule, s) && forall n: nat :: s.J(lengthRule, LengthOctets(n, size))
  }

  /** The two names an override of the rule would bring in are still free. */
  ghost predicate Free(c: Chain, L: Ledger, rule: string)
  {
    FirstTime(c, rule) && !L.names(ChaosName(rule)) && !L.names(OrderName(rule))
  }

  ghost predicate Holds(c: Chain, L: Ledger, s: Basis, pending: seq<string>)
  {
    && Good(c, L.names, L.rank, s.J)
    && (forall n | s.names(n) :: L.names(n) && L.rank(n) <= s.rank(n) + L.depth)
    && (forall m, n | s.names(m) && s.names(n) && s.rank(m) < s.rank(n) :: L.rank(m) < L.rank(n))
    && (forall i | 0 <= i < |pending| :: Plain(pending[i]) == pending[i] && Free(c, L, pending[i]))
  }

  function Advance(L: Ledger, rule: string, level: Level): Ledger
  {
    Ledger(WithNew(L.names, rule, level), Reranked(L.rank, rule), L.depth + 1)
  }

  lemma StillFree(t: Table, rest: Chain, rule: string, entry: Entry, level: Level, L: Ledger, other: string)
    requires Free([t] + rest, L, rule) && Free([t] + rest, L, other)
    requires Plain(rule) == rule && Plain(other) == other && rule != other
    ensures Free(Overridden(t, rest, rule, entry, level), Advance(L, rule, level), other)
  {
    OverriddenLookups(t, rest, rule, entry, level);
    PlainOfNew(rule);
    PlainOfNew(other);
    NamesApart(rule);
    NamesApart(other);
  }

  lemma OverrideGood(t: Table, rest: Chain, rule: string, entry: Entry, level: Level, L: Ledger, s: Basis)
    requires Holds([t] + rest, L, s, [rule]) && RuleFits(rule, s) && EntryFits(rule, entry, s)
    ensures var L' := Advance(L, rule, level); Good(Overridden(t, rest, rule, entry, level), L'.names, L'.rank, s.J)
  {
    assert Free([t] + rest, L, [rule][0]);
    OverrideRanked(t, rest, rule, entry, level, L.names, L.rank);
    OverrideSane(t, rest, rule, entry, level, L.names);
    OverrideClosed(t, rest, rule, entry, level, L.names, s.J);
  }

  /** One first override keeps everything, one stratum deeper. */
  lemma OverrideHolds(t: Table, rest: Chain, rule: string, entry: Entry, level: Level, L: Ledger, s: Basis,
      pending: seq<string>)
    requires Holds([t] + rest, L, s, [rule] + pending) && Distinct([rule] + pending)
    requires RuleFits(rule, s) && EntryFits(rule, entry, s)
    ensures Holds(Overridden(t, rest, rule, entry, level), Advance(L, rule, level), s, pending)
  {
    var all := [rule] + pending;
    assert all[0] == rule && Free([t] + rest, L, all[0]);
    OverrideGood(t, rest, rule, entry, level, L, s);
    OverrideFrees(t, rest, rule, entry, level, L, pending);
    NewNamesApart(rule, L, s);
  }

  lemma OverrideFrees(t: Table, rest: Chain, rule: string, entry: Entry, level: Level, L: Ledger, pending: seq<string>)
    requires Distinct([rule] + pending) && Plain(rule) == rule
    requires forall i | 0 <= i < |[rule] + pending| ::
               Plain(([rule] + pending)[i]) == ([rule] + pending)[i] && Free([t] + rest, L, ([rule] + pending)[i])
    ensures forall i | 0 <= i < |pending| ::
              Plain(pending[i]) == pending[i]
              && Free(Overridden(t, rest, rule, entry, level), Advance(L, rule, level), pending[i])
  {
    hide Free, Plain, Overridden, Advance;
    var all := [rule] + pending;
    assert Free([t] + rest, L, all[0]);
    forall i | 0 <= i < |pending|
      ensures Plain(pending[i]) == pending[i]
      ensures Free(Overridden(t, rest, rule, entry, level), Advance(L, rule, level), pending[i])
    {
      assert all[i + 1] == pending[i];
      StillFree(t, rest, rule, entry, level, L, pending[i]);
    }
  }

  /** The static names are none of the new ones, and keep their order among themselves. */
  lemma NewNamesApart(rule: string, L: Ledger, s: Basis)
    requires !L.names(ChaosName(rule)) && !L.names(OrderName(rule))
    requires forall n | s.names(n) :: L.names(n)
    ensures forall n | s.names(n) :: n != ChaosName(rule) && n != OrderName(rule)
  {
  }

  /** Decoding a rule stays in its meaning, and fails only on a tape shorter than it may draw. */
  lemma DecodedGood(c: Chain, L: Ledger, s: Basis, pending: seq<string>, rule: string, tape: Tape, fuel: nat)
    requires Holds(c, L, s, pending) && s.names(rule) && s.rank(rule) + L.depth < fuel
    ensures var r := DecodeRule(c, rule, tape, fuel);
            && (r.Ok? ==> s.J(rule, r.octets) && |tape| <= |r.rest| + DrawsRule(c, rule, fuel))
            && (r.Fail? ==> r.why == OutOfNumbers && |tape| < DrawsRule(c, rule, fuel))
  {
    RuleEnds(c, L.names, L.rank, true, rule, tape, fuel);
    RuleSound(c, rule, tape, fuel);
    Induct(c, L.names, s.J, fuel);
    StageIs(c, fuel);
  }

  lemma FrozenFits(rule: string, d: seq<byte>, s: Basis)
    requires s.J(rule, d)
    ensures EntryFits(rule, Frozen(d), s)
  {
  }

  lemma FreezeHolds(t: Table, base: Chain, rule: string, d: seq<byte>, lengthRule: string, size: nat, level: Level,
                    L: Ledger, s: Basis, pending: seq<string>)
    requires Holds([t] + base, L, s, [rule, lengthRule] + pending) && Distinct([rule, lengthRule] + pending)
    requires OpFits(Freezing(rule, lengthRule, size), s) && s.J(rule, d)
    ensures Holds([Frozen2(t, base, rule, d, lengthRule, size, level)] + base,
                  Advance(Advance(L, rule, level), lengthRule, level), s, pending)
  {
    var u := Overwrite(t, [t] + base, rule, Frozen(d), level);
    FrozenFits(rule, d, s);
    FrozenFits(lengthRule, LengthOctets(|d|, size), s);
    assert [rule, lengthRule] + pending == [rule] + ([lengthRule] + pending);
    DistinctTail([rule, lengthRule] + pending);
    assert ([rule, lengthRule] + pending)[1..] == [lengthRule] + pending;
    OverrideHolds(t, base, rule, Frozen(d), level, L, s, [lengthRule] + pending);
    OverrideHolds(u, base, lengthRule, Frozen(LengthOctets(|d|, size)), level, Advance(L, rule, level), s, pending);
  }

  lemma DistinctTail(rules: seq<string>)
    requires Distinct(rules) && rules != []
    ensures Distinct(rules[1..])
  {
  }

  /** What one operation keeps, and how many numbers it asks for. */
  ghost predicate OpOutcome(op: Op, level: Level, t: Table, base: Chain, tape: Tape, fuel: nat, L: Ledger, s: Basis,
      pending: seq<string>)
  {
    match RunOp(op, level, t, base, tape, fuel)
    case Stuck(why) => why == OutOfNumbers && |tape| < NeedOf(op, t, base, fuel)
    case Done(head, rest) =>
      && Holds([head] + base, L, s, pending)
      && |tape| <= |rest| + NeedOf(op, t, base, fuel)
      && AlikeTables(head, Settle(op, level, t, base))
  }

  lemma OpHolds(op: Op, level: Level, t: Table, base: Chain, tape: Tape, fuel: nat, L: Ledger, s: Basis,
      pending: seq<string>)
    returns (L': Ledger)
    requires Holds([t] + base, L, s, RulesOf(op) + pending) && Distinct(RulesOf(op) + pending) && OpFits(op, s)
    requires forall n | s.names(n) :: s.rank(n) + L.depth < fuel
    ensures OpOutcome(op, level, t, base, tape, fuel, L', s, pending) && L'.depth == L.depth + |RulesOf(op)|
  {
    hide Holds, Distinct, RuleFits, EntryFits, DecodeRule, Overwrite, LengthOctets, DrawsRule, AlikeTables, Frozen2;
    match op
    case Overwriting(rule, entry) =>
      OverrideHolds(t, base, rule, entry, level, L, s, pending);
      L' := Advance(L, rule, level);
      AlikeItself(RunOp(op, level, t, base, tape, fuel).head);
    case Freezing(rule, lengthRule, size) =>
      RuleNamed(rule, s);
      DecodedGood([t] + base, L, s, RulesOf(op) + pending, rule, tape, fuel);
      var r := DecodeRule([t] + base, rule, tape, fuel);
      if r.Ok? {
        FreezeHolds(t, base, rule, r.octets, lengthRule, size, level, L, s, pending);
        FreezeAlike(t, base, rule, r.octets, lengthRule, size, level);
      }
      L' := Advance(Advance(L, rule, level), lengthRule, level);
  }

  lemma RuleNamed(rule: string, s: Basis)
    requires RuleFits(rule, s)
    ensures s.names(rule)
  {
  }

  lemma DistinctDrop(a: seq<string>, b: seq<string>)
    requires Distinct(a + b)
    ensures Distinct(b)
  {
    forall i, j | 0 <= i < j < |b| ensures b[i] != b[j] {
      assert (a + b)[|a| + i] == b[i] && (a + b)[|a| + j] == b[j];
    }
  }

  /** The same of a list of operations. */
  ghost predicate OpsOutcome(ops: seq<Op>, level: Level, t: Table, base: Chain, tape: Tape, fuel: nat, L: Ledger,
      s: Basis)
  {
    match RunOps(ops, level, t, base, tape, fuel)
    case Stuck(why) => why == OutOfNumbers && |tape| < Budget(ops, level, t, base, fuel)
    case Done(head, rest) =>
      && Holds([head] + base, L, s, [])
      && |tape| <= |rest| + Budget(ops, level, t, base, fuel)
      && AlikeTables(head, Settled(ops, level, t, base))
  }

  /** Any list of fitting first overrides and freezes: every tape that holds the budget gets
      through, with at most the budget spent, and what it leaves behind is as good as the base. */
  lemma {:induction false} OpsHold(ops: seq<Op>, level: Level, t: Table, base: Chain, tape: Tape, fuel: nat,
      L: Ledger, s: Basis)
    returns (L': Ledger)
    requires Holds([t] + base, L, s, RulesOfAll(ops)) && Distinct(RulesOfAll(ops))
    requires forall i | 0 <= i < |ops| :: OpFits(ops[i], s)
    requires forall n | s.names(n) :: s.rank(n) + L.depth + |RulesOfAll(ops)| < fuel
    ensures OpsOutcome(ops, level, t, base, tape, fuel, L', s) && L'.depth == L.depth + |RulesOfAll(ops)|
  {
    hide Holds, Distinct, OpFits, RunOp, AlikeTables, Settle, NeedOf;
    L' := L;
    if ops == [] {
      AlikeItself(t);
    } else {
      var later := RulesOfAll(ops[1..]);
      L' := OpHolds(ops[0], level, t, base, tape, fuel, L, s, later);
      var r := RunOp(ops[0], level, t, base, tape, fuel);
      DistinctDrop(RulesOf(ops[0]), later);
      if r.Done? {
        var M := L';
        L' := OpsHold(ops[1..], level, r.head, base, r.rest, fuel, M, s);
        BudgetAlike(ops[1..], level, r.head, Settle(ops[0], level, t, base), base, fuel);
        var q := RunOps(ops[1..], level, r.head, base, r.rest, fuel);
        if q.Done? {
          AlikeOn(q.head, Settled(ops[1..], level, r.head, base),
                  Settled(ops[1..], level, Settle(ops[0], level, t, base), base));
        }
      } else {
        L' := Ledger(L.names, L.rank, L.depth + |RulesOfAll(ops)|);
      }
    }
  }
}
