/** The builders as they run (fuzzer/Connection.c): a fresh grammar, overwritten rule by rule under
    an environment that already sees it, then decoded; each is its list of operations, executed. */
module Connection {
  import opened Octets
  import opened CText
  import opened AbnfPrint
  import opened Language
  import opened Decoder
  import opened DecoderLoops
  import opened Override
  import opened Assembly
  import opened AmqpRules
  import opened AmqpGrammar
  import opened Builders
  import opened Frames
  import opened OrderlyPackets
  import opened Session

  /** How a string generator is met: alone at level 0, as the ordered half of a choice with the
      protocol's own rule at levels 1 to 3. */
  predicate Generates(c: Chain, rule: string, g: Generator, raw: Option<Entry>, level: Level)
  {
    && (level == 0 ==> Lookup(c, rule) == Some(Function(g)))
    && (1 <= level <= 3 ==>
          && Lookup(c, rule) == Some(Choice(RuleArray(level, rule)))
          && Lookup(c, OrderName(rule)) == Some(Function(g))
          && (raw.Some? ==> Lookup(c, ChaosName(rule)) == raw))
  }

  lemma OverwriteGenerates(t: Table, protocol: Table, rule: string, g: Generator, level: Level)
    ensures var c := [Overwrite(t, [protocol], rule, Function(g), level), protocol];
            Generates(c, rule, g, Lookup([protocol], rule), level)
  {
    NamesApart(rule);
  }

  lemma StillGenerates(t: Table, protocol: Table, rule: string, g: Generator, level: Level, later: string, e: Entry)
    requires Generates([t, protocol], rule, g, Lookup([protocol], rule), level)
    requires forall n | Own(rule, n) :: !Own(later, n)
    ensures Generates([Overwrite(t, [protocol], later, e, level), protocol], rule, g, Lookup([protocol], rule), level)
  {
    hide Overwrite;
    forall n | Own(rule, n)
      ensures Lookup([Overwrite(t, [protocol], later, e, level), protocol], n) == Lookup([t, protocol], n)
    {
      OverwriteElsewhere(t, [protocol], later, e, level, n);
      assert [t, protocol][1..] == [protocol];
      assert [Overwrite(t, [protocol], later, e, level), protocol][1..] == [protocol];
    }
    assert Own(rule, rule) && Own(rule, ChaosName(rule)) && Own(rule, OrderName(rule));
  }

  lemma StringNamesApart()
    ensures forall n | Own("short-string", n) :: !Own("long-string", n)
  {
    assert "short-string"[0] == 's' && "long-string"[0] == 'l';
    assert ChaosName("short-string")[13] == 's' && OrderName("short-string")[13] == 's';
    assert ChaosName("long-string")[13] == 'l' && OrderName("long-string")[13] == 'l';
    assert |"short-string"| == 12 && |"long-string"| == 11;
    NamesApart("short-string");
  }

  /** setup_connection_env on a freshly parsed connection grammar: the two string generators are
      installed, and every other name means what the two grammars say. */
  method SetupConnectionEnv(connection: Grammar, protocol: Table, level: Level)
    requires connection.Valid()
    modifies connection
    ensures connection.Valid()
    ensures var env, raw := [connection.table, protocol], [protocol];
            && Generates(env, "short-string", ShortString, Lookup(raw, "short-string"), level)
            && Generates(env, "long-string", LongString, Lookup(raw, "long-string"), level)
    ensures forall c, p | old(connection.table) == Load(c) && protocol == Load(p) ::
              Models([connection.table, protocol], c, p)
    ensures connection.table == Installed(old(connection.table), protocol, level)
  {
    ghost var was := connection.table;
    var _ := OverwriteRuleWithChaos(connection, [protocol], "short-string", Function(ShortString), level);
    ghost var t := connection.table;
    OverwriteGenerates(was, protocol, "short-string", ShortString, level);
    var _ := OverwriteRuleWithChaos(connection, [protocol], "long-string", Function(LongString), level);
    hide Generates, Models, Load, Overwrite;
    OverwriteGenerates(t, protocol, "long-string", LongString, level);
    StringNamesApart();
    StillGenerates(t, protocol, "short-string", ShortString, level, "long-string", Function(LongString));
    forall c, p | was == Load(c) && protocol == Load(p) ensures Models([connection.table, protocol], c, p) {
      InstalledModels(c, p, level);
    }
  }

  /** overwrite_rule_set_length: decode, freeze, and freeze the length beside it. */
  method OverwriteRuleSetLength(rule: string, lengthRule: string, size: nat, g: Grammar, base: Chain, level: Level,
      rng: Rng, fuel: nat)
    returns (why: Option<Failure>)
    requires g.Valid()
    modifies g, rng
    ensures g.Valid()
    ensures var p := RunOp(Freezing(rule, lengthRule, size), level, old(g.table), base, old(rng.tape), fuel);
            Ran(why, g.table, rng.tape, p)
  {
    var decoded;
    ghost var was := g.table;
    why, decoded := DecodeNamedRule(rule, [g.table] + base, rng, fuel);
    if why != None { return; }
    ghost var d := decoded[..];
    var _ := OverwriteRuleWithChaos(g, [g.table] + base, rule, Frozen(decoded[..]), level);
    var literal := new byte[size](_ => 0);
    assert literal[..] == Zeros(size);
    IntInChar(literal, decoded.Length, 0, size);
    LiteralIs(Zeros(size), literal[..], decoded.Length, size);
    var _ := OverwriteRuleWithChaos(g, [g.table] + base, lengthRule, Frozen(literal[..]), level);
  }

  lemma LiteralIs(was: seq<byte>, literal: seq<byte>, n: nat, size: nat)
    requires was == Zeros(size) && literal == Stored(was, n, 0, 4, size)
    ensures literal == LengthOctets(n, size)
  {
    PowFour();
    if size >= 4 { assert was[4..] == Zeros(size - 4) && was[..0] == []; }
  }

  /** The grammar and tape a step leaves are what the function says. */
  predicate Ran(why: Option<Failure>, table: Table, tape: Tape, p: Progress)
  {
    match p
    case Done(head, rest) => why == None && table == head && tape == rest
    case Stuck(w) => why == Some(w)
  }

  /** How far a builder has come: what is left to do from here is all there was to do. */
  ghost predicate At(ops: seq<Op>, k: nat, level: Level, table: Table, base: Chain, tape: Tape, fuel: nat,
      all: Progress)
    requires k <= |ops|
  {
    RunOps(ops[k..], level, table, base, tape, fuel) == all
  }

  lemma Begin(ops: seq<Op>, level: Level, base: Chain, tape: Tape, fuel: nat)
    ensures At(ops, 0, level, map[], base, tape, fuel, RunOps(ops, level, map[], base, tape, fuel))
  {
    assert ops[0..] == ops;
  }

  lemma Step(ops: seq<Op>, k: nat, level: Level, t: Table, base: Chain, tape: Tape, fuel: nat)
    requires k < |ops|
    ensures var p := RunOp(ops[k], level, t, base, tape, fuel);
            RunOps(ops[k..], level, t, base, tape, fuel)
            == if p.Stuck? then p else RunOps(ops[k + 1..], level, p.head, base, p.rest, fuel)
  {
    assert ops[k..][1..] == ops[k + 1..];
  }

  method OverwriteStep(g: Grammar, base: Chain, level: Level, rule: string, entry: Entry,
                      ghost ops: seq<Op>, ghost k: nat, ghost tape: Tape, ghost fuel: nat, ghost all: Progress)
    requires k < |ops| && ops[k] == Overwriting(rule, entry) && At(ops, k, level, g.table, base, tape, fuel, all)
    requires g.Valid()
    modifies g
    ensures g.Valid()
    ensures At(ops, k + 1, level, g.table, base, tape, fuel, all)
  {
    Step(ops, k, level, g.table, base, tape, fuel);
    var _ := OverwriteRuleWithChaos(g, [g.table] + base, rule, entry, level);
  }

  method FreezeStep(g: Grammar, base: Chain, level: Level, rule: string, lengthRule: string, size: nat, rng: Rng,
      fuel: nat,
                   ghost ops: seq<Op>, ghost k: nat, ghost all: Progress)
    returns (why: Option<Failure>)
    requires k < |ops| && ops[k] == Freezing(rule, lengthRule, size)
    requires At(ops, k, level, g.table, base, rng.tape, fuel, all)
    requires g.Valid()
    modifies g, rng
    ensures g.Valid()
    ensures why == None ==> At(ops, k + 1, level, g.table, base, rng.tape, fuel, all)
    ensures why != None ==> all == Stuck(why.value)
  {
    Step(ops, k, level, g.table, base, rng.tape, fuel);
    why := OverwriteRuleSetLength(rule, lengthRule, size, g, base, level, rng, fuel);
  }

  /** The last two calls of every builder. */
  method Finish(g: Grammar, base: Chain, level: Level, rng: Rng, fuel: nat, ghost ops: seq<Op>, ghost k: nat,
      ghost all: Progress)
    returns (why: Option<Failure>, packet: array<byte>)
    requires k + 1 == |ops| && ops[k] == Sealing() && At(ops, k, level, g.table, base, rng.tape, fuel, all)
    requires g.Valid()
    modifies g, rng
    ensures fresh(packet)
    ensures all.Stuck? ==> why == Some(all.why)
    ensures all.Done? ==> Returned(why, packet[..], rng.tape, DecodeRule([all.head] + base, "method", all.rest, fuel))
  {
    packet := new byte[0];
    why := FreezeStep(g, base, level, "method-payload", "payload-size", 4, rng, fuel, ops, k, all);
    if why == None {
      assert ops[|ops|..] == [];
      why, packet := DecodeNamedRule("method", [g.table] + base, rng, fuel);
    }
  }

  method ConnectionCloseOk(base: Chain, level: Level, rng: Rng, fuel: nat)
    returns (why: Option<Failure>, packet: array<byte>, nextState: State, responseExpected: bool)
    modifies rng
    ensures fresh(packet) && nextState == CloseOk && responseExpected
    ensures Returned(why, packet[..], rng.tape, Assemble(CloseOkOps(), level, base, old(rng.tape), fuel))
  {
    hide RunOps, DecodeRule, Overwrite, At, Body, Hex;
    nextState, responseExpected := CloseOk, true;
    var g := new Grammar();
    ghost var ops := CloseOkOps();
    ghost var all := RunOps(ops, level, map[], base, rng.tape, fuel);
    Begin(ops, level, base, rng.tape, fuel);
    OverwriteStep(g, base, level, "method-id", Body([Named("m51-method-id")]), ops, 0, rng.tape, fuel, all);
    OverwriteStep(g, base, level, "method-properties", Body([Named("m51-method-properties")]), ops, 1, rng.tape, fuel,
        all);
    why, packet := Finish(g, base, level, rng, fuel, ops, 2, all);
  }

  method ConnectionStartOk(base: Chain, level: Level, rng: Rng, fuel: nat)
    returns (why: Option<Failure>, packet: array<byte>, nextState: State, responseExpected: bool)
    modifies rng
    ensures fresh(packet) && nextState == Start && responseExpected
    ensures Returned(why, packet[..], rng.tape, Assemble(StartOkOps(), level, base, old(rng.tape), fuel))
  {
    hide RunOps, DecodeRule, Overwrite, At, Body, Hex;
    nextState, responseExpected := Start, true;
    var g := new Grammar();
    ghost var ops := StartOkOps();
    ghost var all := RunOps(ops, level, map[], base, rng.tape, fuel);
    Begin(ops, level, base, rng.tape, fuel);
    OverwriteStep(g, base, level, "method-id", Body([Named("m11-method-id")]), ops, 0, rng.tape, fuel, all);
    OverwriteStep(g, base, level, "method-properties", Body([Named("m11-method-properties")]), ops, 1, rng.tape, fuel,
        all);
    why := FreezeStep(g, base, level, "client-properties-payload", "client-properties-length", 4, rng, fuel, ops, 2,
        all);
    if why != None { packet := new byte[0]; return; }
    OverwriteStep(g, base, level, "authcid", Body([Quote("username")]), ops, 3, rng.tape, fuel, all);
    OverwriteStep(g, base, level, "passwd", Body([Quote("password")]), ops, 4, rng.tape, fuel, all);
    why := FreezeStep(g, base, level, "message", "message-length", 4, rng, fuel, ops, 5, all);
    if why != None { packet := new byte[0]; return; }
    why, packet := Finish(g, base, level, rng, fuel, ops, 6, all);
  }

  method ConnectionOpen(base: Chain, level: Level, rng: Rng, fuel: nat)
    returns (why: Option<Failure>, packet: array<byte>, nextState: State, responseExpected: bool)
    modifies rng
    ensures fresh(packet) && nextState == Opening && responseExpected
    ensures Returned(why, packet[..], rng.tape, Assemble(OpenOps(), level, base, old(rng.tape), fuel))
  {
    hide RunOps, DecodeRule, Overwrite, At, Body, Hex;
    nextState, responseExpected := Opening, true;
    var g := new Grammar();
    ghost var ops := OpenOps();
    ghost var all := RunOps(ops, level, map[], base, rng.tape, fuel);
    Begin(ops, level, base, rng.tape, fuel);
    OverwriteStep(g, base, level, "method-id", Body([Named("m40-method-id")]), ops, 0, rng.tape, fuel, all);
    OverwriteStep(g, base, level, "method-properties", Body([Named("m40-method-properties")]), ops, 1, rng.tape, fuel,
        all);
    OverwriteStep(g, base, level, "virtual-host", Body([Hex([0x01, 0x2F])]), ops, 2, rng.tape, fuel, all);
    why, packet := Finish(g, base, level, rng, fuel, ops, 3, all);
  }

  method ConnectionClose(base: Chain, level: Level, rng: Rng, fuel: nat)
    returns (why: Option<Failure>, packet: array<byte>, nextState: State, responseExpected: bool)
    modifies rng
    ensures fresh(packet) && nextState == CloseOk && responseExpected
    ensures Returned(why, packet[..], rng.tape, Assemble(CloseOps(), level, base, old(rng.tape), fuel))
  {
    hide RunOps, DecodeRule, Overwrite, At, Body, Hex;
    nextState, responseExpected := CloseOk, true;
    var g := new Grammar();
    ghost var ops := CloseOps();
    ghost var all := RunOps(ops, level, map[], base, rng.tape, fuel);
    Begin(ops, level, base, rng.tape, fuel);
    OverwriteStep(g, base, level, "method-id", Body([Named("m50-method-id")]), ops, 0, rng.tape, fuel, all);
    OverwriteStep(g, base, level, "method-properties", Body([Named("m50-method-properties")]), ops, 1, rng.tape, fuel,
        all);
    OverwriteStep(g, base, level, "reply-code", Body([Hex([0x00, 0xC8])]), ops, 2, rng.tape, fuel, all);
    OverwriteStep(g, base, level, "reply-text", Body([Hex([0x03, 0x32, 0x30, 0x30])]), ops, 3, rng.tape, fuel, all);
    OverwriteStep(g, base, level, "m50-class-id-val", Body([Hex([0x00, 0x00])]), ops, 4, rng.tape, fuel, all);
    OverwriteStep(g, base, level, "m50-method-id-val", Body([Hex([0x00, 0x00])]), ops, 5, rng.tape, fuel, all);
    why, packet := Finish(g, base, level, rng, fuel, ops, 6, all);
  }

  /* --- Tune-Ok --- */

  /** The limits Tune-Ok announces, and the tape after choosing them. */
  datatype Limits = Chosen(channelMax: int, frameMax: int, rest: Tape) | Unchosen(why: Failure)

  /** C's remainder of a non-negative number. */
  function Remainder(n: nat, m: int): nat
    requires m != 0
  {
    n % (if m < 0 then -m else m)
  }

  /** It is the one number below the modulus that differs from the dividend by a multiple of it,
      whatever the modulus's sign. */
  lemma RemainderExactly(n: nat, m: int, r: nat)
    requires m != 0
    ensures Magnitude(m) > 0 && Remainder(n, m) == n % Magnitude(m)
    ensures r == Remainder(n, m) <==> r < Magnitude(m) && exists q: nat :: n == q * Magnitude(m) + r
  {
    var k := Magnitude(m);
    assert n == n / k * k + n % k;
    if r < k && exists q: nat :: n == q * k + r {
      var q: nat :| n == q * k + r;
      ModUnique(n, k, q, r);
    }
  }

  predicate Stops(frameMax: int) { frameMax == 0 || frameMax >= 4095 }

  /** The resampling loop: draw until the limit is 0 or at least 4095. */
  function DrawFrameMax(bound: int, frameMax: int, t: Tape): (r: Option<(int, Tape)>)
    requires bound != 0
    decreases |t|
  {
    if Stops(frameMax) then Some((frameMax, t))
    else if t == [] then None
    else DrawFrameMax(bound, Remainder(t[0], bound), t[1..])
  }

  /** Both limits, from Tune's arguments; without a Tune, the largest ones. */
  function ChooseLimits(tune: Option<seq<byte>>, t: Tape): Limits
  {
    match tune
    case None => Chosen(0xFFFF, -1, t)
    case Some(args) =>
      if |args| < 6 then Unchosen(Crash)
      else
        var channels, frames := CharInShort(args, 0) + 1, Signed32(CharInInt(args, 2) + 1);
        if t == [] then Unchosen(OutOfNumbers)
        else if channels == 0 then Unchosen(Crash)
        else if t[1..] == [] then Unchosen(OutOfNumbers)
        else if frames == 0 then Unchosen(Crash)
        else match DrawFrameMax(frames, -1, t[1..])
          case None => Unchosen(OutOfNumbers)
          case Some((frameMax, rest)) => Chosen(Remainder(t[0], channels), frameMax, rest)
  }

  function Magnitude(m: int): nat { if m < 0 then -m else m }

  lemma {:induction false} FrameMaxDrawn(bound: int, frameMax: int, t: Tape)
    requires bound != 0 && -1 <= frameMax < Magnitude(bound)
    ensures var r := DrawFrameMax(bound, frameMax, t);
            r.Some? ==> 0 <= r.value.0 < Magnitude(bound) && Stops(r.value.0)
    decreases |t|
  {
    if !Stops(frameMax) && t != [] { FrameMaxDrawn(bound, Remainder(t[0], bound), t[1..]); }
  }

  /** The loop ends at the first roll whose remainder is 0 or at least 4095, and takes that. */
  lemma {:induction false} FirstStop(bound: int, frameMax: int, t: Tape, i: nat)
    requires bound != 0 && !Stops(frameMax)
    requires i < |t| && Stops(Remainder(t[i], bound)) && forall j | 0 <= j < i :: !Stops(Remainder(t[j], bound))
    ensures DrawFrameMax(bound, frameMax, t) == Some((Remainder(t[i], bound), t[i + 1..]))
    decreases i
  {
    hide Stops, Remainder;
    var u := t[1..];
    if i > 0 {
      assert !Stops(Remainder(t[0], bound));
      forall j | 0 <= j < i - 1 ensures !Stops(Remainder(u[j], bound)) { assert u[j] == t[j + 1]; }
      assert u[i - 1] == t[i] && u[i..] == t[i + 1..];
      FirstStop(bound, Remainder(t[0], bound), u, i - 1);
    } else {
      assert u == t[i + 1..];
      assert DrawFrameMax(bound, Remainder(t[0], bound), u) == Some((Remainder(t[0], bound), u));
    }
  }

  lemma {:induction false} NoStop(bound: int, frameMax: int, t: Tape)
    requires bound != 0 && !Stops(frameMax) && forall j | 0 <= j < |t| :: !Stops(Remainder(t[j], bound))
    ensures DrawFrameMax(bound, frameMax, t) == None
    decreases |t|
  {
    hide Stops, Remainder;
    if t != [] {
      var u := t[1..];
      forall j | 0 <= j < |u| ensures !Stops(Remainder(u[j], bound)) { assert u[j] == t[j + 1]; }
      assert !Stops(Remainder(t[0], bound));
      NoStop(bound, Remainder(t[0], bound), u);
    }
  }

  /** Where the loop over these rolls ends, if it does. */
  function StopAt(bound: int, t: Tape): (i: nat)
    requires bound != 0
    ensures i <= |t| && forall j | 0 <= j < i :: !Stops(Remainder(t[j], bound))
    ensures i < |t| ==> Stops(Remainder(t[i], bound))
  {
    if t == [] || Stops(Remainder(t[0], bound)) then 0
    else
      var i := 1 + StopAt(bound, t[1..]);
      assert forall j | 1 <= j < i :: t[j] == t[1..][j - 1];
      i
  }

  /** The loop ends within this many rolls, whatever they are. */
  ghost predicate EndsWithin(bound: int, n: nat)
    requires bound != 0
  {
    forall t: Tape | |t| >= n :: DrawFrameMax(bound, -1, t).Some?
  }

  /** No number of rolls is enough on every stream, unless the bound leaves only 0 to draw. */
  lemma ResamplingEnds(bound: int)
    requires bound != 0
    ensures (exists n: nat :: EndsWithin(bound, n)) <==> Magnitude(bound) == 1
  {
    if Magnitude(bound) == 1 {
      forall t: Tape | |t| >= 1 ensures DrawFrameMax(bound, -1, t).Some? {
        assert Remainder(t[0], bound) == 0;
        FirstStop(bound, -1, t, 0);
      }
      assert EndsWithin(bound, 1);
    } else {
      forall n: nat ensures !EndsWithin(bound, n) {
        var t: Tape := seq(n, _ => 1);
        forall j | 0 <= j < |t| ensures !Stops(Remainder(t[j], bound)) { OneRemains(bound); }
        NoStop(bound, -1, t);
      }
    }
  }

  lemma OneRemains(bound: int)
    requires Magnitude(bound) > 1
    ensures Remainder(1, bound) == 1
  {
  }

  /** The bound the frame-max is drawn under: one more than the offer as read. */
  function FrameBound(args: seq<byte>): int
    requires |args| >= 6
  {
    Signed32(CharInInt(args, 2) + 1)
  }

  /** Choosing succeeds on exactly the streams with, after the first number, one the loop stops at;
      the first such number gives the frame-max. */
  lemma ChosenExactly(args: seq<byte>, t: Tape)
    requires !BadTune(args) && t != []
    ensures var bound, r := FrameBound(args), ChooseLimits(Some(args), t);
            var i := StopAt(bound, t[1..]) + 1;
            && (r.Chosen? <==> i < |t|)
            && (r.Chosen? <==> exists j | 1 <= j < |t| :: Stops(t[j] % Magnitude(bound)))
            && (r.Chosen? ==>
                  && Stops(t[i] % Magnitude(bound)) && (forall j | 1 <= j < i :: !Stops(t[j] % Magnitude(bound)))
                  && r == Chosen(t[0] % Magnitude(CharInShort(args, 0) + 1), t[i] % Magnitude(bound), t[i + 1..]))
  {
    hide Remainder, CharInShort, DrawFrameMax, StopAt;
    var bound, u := FrameBound(args), t[1..];
    var i := StopAt(bound, u);
    forall j | 0 <= j < |t| ensures Remainder(t[j], bound) == t[j] % Magnitude(bound) {
      RemainderExactly(t[j], bound, 0);
    }
    RemainderExactly(t[0], CharInShort(args, 0) + 1, 0);
    forall j | 1 <= j <= i ensures !Stops(t[j] % Magnitude(bound)) { assert t[j] == u[j - 1]; }
    if i < |u| {
      FirstStop(bound, -1, u, i);
      assert u[i] == t[i + 1] && u[i + 1..] == t[i + 2..];
    } else {
      NoStop(bound, -1, u);
    }
  }

  /** Both limits are remainders of rolls: of the first, and of the one the loop stopped at. */
  predicate Drawn(args: seq<byte>, t: Tape, rest: Tape, channelMax: int, frameMax: int)
  {
    && !BadTune(args)
    && |rest| + 2 <= |t|
    && var i := |t| - |rest| - 1;
       && rest == t[i + 1..]
       && channelMax == t[0] % Magnitude(CharInShort(args, 0) + 1)
       && frameMax == t[i] % Magnitude(FrameBound(args)) && Stops(frameMax)
       && forall j | 1 <= j < i :: !Stops(t[j] % Magnitude(FrameBound(args)))
  }

  lemma ChosenDrawn(args: seq<byte>, t: Tape)
    ensures var r := ChooseLimits(Some(args), t); r.Chosen? ==> Drawn(args, t, r.rest, r.channelMax, r.frameMax)
  {
    hide Remainder, CharInShort, DrawFrameMax, StopAt, Stops;
    if !BadTune(args) && t != [] { ChosenExactly(args, t); }
  }

  /** Whatever the peer offers, the limits never exceed the offers as it wrote them, although
      char_in_int may have misread one; they exceed the offers as read exactly when those come out
      negative. */
  lemma LimitsWithinOffers(args: seq<byte>, t: Tape)
    requires |args| >= 6
    ensures var channels, frames, r := CharInShort(args, 0), CharInInt(args, 2), ChooseLimits(Some(args), t);
            r.Chosen? ==>
              && 0 <= r.channelMax <= Value(args[..2]) < 0x1_0000
              && 0 <= r.frameMax <= Value(args[2..6]) && r.frameMax < 0x8000_0000
              && Stops(r.frameMax)
              && (r.channelMax <= channels <==> channels >= 0)
              && (r.frameMax <= frames <==> frames >= 0)
  {
    hide CharInShort, CharInInt, Remainder, DrawFrameMax, Value, Stops;
    if !BadTune(args) && |t| >= 2 {
      ChannelsWithin(args, t[0]);
      FramesWithin(args, t[1..]);
    }
  }

  lemma ChannelsWithin(args: seq<byte>, n: nat)
    requires |args| >= 6 && CharInShort(args, 0) != -1
    ensures var offer := CharInShort(args, 0); var c := Remainder(n, offer + 1);
            0 <= c <= Value(args[..2]) < 0x1_0000 && (c <= offer <==> offer >= 0)
  {
    ShortIsValue(args, 0);
    hide Remainder, Value;
    assert args[0..2] == args[..2];
    ChannelMaxWithin(CharInShort(args, 0), n);
  }

  lemma FramesWithin(args: seq<byte>, t: Tape)
    requires |args| >= 6 && CharInInt(args, 2) != -1
    ensures var offer := CharInInt(args, 2); var r := DrawFrameMax(FrameBound(args), -1, t);
            r.Some? ==>
              var f := r.value.0;
              && 0 <= f <= Value(args[2..6]) && f < 0x8000_0000 && Stops(f)
              && (f <= offer <==> offer >= 0)
  {
    hide DrawFrameMax, Value, Stops, Misread;
    var bound := FrameBound(args);
    IntIsValue(args, 2);
    FrameMaxDrawn(bound, -1, t);
    var r := DrawFrameMax(bound, -1, t);
    if r.Some? {
      hide CharInInt, Signed32, Magnitude;
      FrameMaxWithin(CharInInt(args, 2), r.value.0);
      FrameMaxWithinWritten(Value(args[2..6]), r.value.0);
    }
  }

  /** The least frame-max is documented as 4096, but the loop stops at 4095 when it can draw it. */
  lemma LeastFrameMax(bound: int)
    requires bound != 0
    ensures (forall t: Tape | DrawFrameMax(bound, -1, t).Some? ::
               DocumentedFrameMax(DrawFrameMax(bound, -1, t).value.0))
       <==> Magnitude(bound) <= 4095
  {
    forall t: Tape ensures DrawFrameMax(bound, -1, t).Some? && Magnitude(bound) <= 4095 ==>
        DocumentedFrameMax(DrawFrameMax(bound, -1, t).value.0)
    {
      FrameMaxDrawn(bound, -1, t);
    }
    if Magnitude(bound) > 4095 {
      var t: Tape := [4095];
      assert Remainder(t[0], bound) == 4095;
      assert DrawFrameMax(bound, 4095, t[1..]) == Some((4095, t[1..]));
      assert DrawFrameMax(bound, -1, t).Some? && !DocumentedFrameMax(DrawFrameMax(bound, -1, t).value.0);
    }
  }

  predicate DocumentedFrameMax(f: int) { f == 0 || f >= 4096 }

  /** Choosing the limits can crash on exactly these offers. */
  lemma TuneCrashes(args: seq<byte>)
    ensures (exists t :: ChooseLimits(Some(args), t) == Unchosen(Crash)) <==> BadTune(args)
  {
    if BadTune(args) {
      var t := [0, 0];
      assert t[1..] == [0];
      assert ChooseLimits(Some(args), t) == Unchosen(Crash);
    }
  }

  /** So the documented least frame-max is kept for exactly those offers which, as read, crash the
      choice or draw only numbers below 4095. */
  lemma DocumentedLeast(args: seq<byte>)
    requires |args| >= 6
    ensures (forall t | ChooseLimits(Some(args), t).Chosen? :: DocumentedFrameMax(ChooseLimits(Some(args), t).frameMax))
       <==> BadTune(args) || Magnitude(CharInInt(args, 2) + 1) <= 4095
  {
    hide CharInShort, Remainder, DrawFrameMax;
    if BadTune(args) { return; }
    var bound := Signed32(CharInInt(args, 2) + 1);
    assert Magnitude(bound) <= 4095 <==> Magnitude(CharInInt(args, 2) + 1) <= 4095;
    LeastFrameMax(bound);
    if Magnitude(bound) > 4095 {
      var t: Tape :| DrawFrameMax(bound, -1, t).Some? && !DocumentedFrameMax(DrawFrameMax(bound, -1, t).value.0);
      if t == [] { NothingDrawn(bound); }
      var u: Tape := [0] + t;
      assert u[1..] == t;
      assert ChooseLimits(Some(args), u).Chosen? && !DocumentedFrameMax(ChooseLimits(Some(args), u).frameMax);
    } else {
      forall t | ChooseLimits(Some(args), t).Chosen? ensures DocumentedFrameMax(ChooseLimits(Some(args), t).frameMax) {
        assert DrawFrameMax(bound, -1, t[1..]).Some?;
      }
    }
  }

  lemma NothingDrawn(bound: int)
    requires bound != 0
    ensures DrawFrameMax(bound, -1, []) == None
  {
  }

  /** An offer of 8192, and the loop stops at 4095. */
  lemma LeastFrameMaxExample(args: seq<byte>, t: Tape)
    requires args == [0, 10, 0, 0, 0x20, 0] && t == [0, 4095]
    ensures ChooseLimits(Some(args), t) == Chosen(0, 4095, [])
  {
    assert t[1..] == [4095] && t[1..][1..] == [];
    assert DrawFrameMax(0x2001, 4095, []) == Some((4095, []));
    assert DrawFrameMax(0x2001, -1, [4095]) == DrawFrameMax(0x2001, 4095, [4095][1..]);
  }

  lemma ChannelMaxWithin(offer: int, n: nat)
    requires -0x8000 <= offer < 0x8000 && offer + 1 != 0
    ensures var c := Remainder(n, offer + 1); 0 <= c <= offer % 0x1_0000 && (c <= offer <==> offer >= 0)
  {
    var m := Magnitude(offer + 1);
    assert n % m < m;
    if offer < 0 { assert offer % 0x1_0000 == offer + 0x1_0000; }
  }

  lemma FrameMaxWithin(offer: int, f: int)
    requires -0x8000_0000 <= offer < 0x8000_0000 && 0 <= f < Magnitude(Signed32(offer + 1))
    ensures f < 0x8000_0000 && (f <= offer <==> offer >= 0)
  {
  }

  lemma FrameMaxWithinWritten(v: nat, f: int)
    requires v < 0x1_0000_0000 && 0 <= f < Magnitude(Signed32(Misread(v) + 1))
    ensures f <= v
  {
    assert Bit15(v) ==> v >= 0x8000;
    var w := if Bit15(v) then v - 0x1_0000 else v;
    assert Misread(v) == if w < 0x8000_0000 then w else w - 0x1_0000_0000;
  }

  /** connection_tune_ok's choice of limits, with the loop it has. */
  method NegotiateLimits(tune: Option<seq<byte>>, rng: Rng) returns (why: Option<Failure>, channelMax: int,
      frameMax: int)
    modifies rng
    ensures Negotiated(why, channelMax, frameMax, rng.tape, ChooseLimits(tune, old(rng.tape)))
    ensures why == None && tune.Some? ==> Drawn(tune.value, old(rng.tape), rng.tape, channelMax, frameMax)
  {
    hide Drawn;
    channelMax, frameMax := 0, -1;
    if tune == None { return None, 0xFFFF, -1; }
    var args := tune.value;
    ChosenDrawn(args, rng.tape);
    if |args| < 6 { return Some(Crash), 0, -1; }
    var receivedChannelMax, receivedFrameMax := CharInShort(args, 0), CharInInt(args, 2);
    var roll := rng.Roll();
    if roll == None { return Some(OutOfNumbers), 0, -1; }
    if receivedChannelMax + 1 == 0 { return Some(Crash), 0, -1; }
    channelMax := Remainder(roll.value, receivedChannelMax + 1);
    var bound := Signed32(receivedFrameMax + 1);
    ghost var goal := if bound == 0 then None else DrawFrameMax(bound, -1, rng.tape);
    while frameMax != 0 && frameMax < 4095
      invariant bound == 0 ==> frameMax == -1 && rng.tape == old(rng.tape)[1..]
      invariant bound != 0 && frameMax == -1 ==> rng.tape == old(rng.tape)[1..]
      invariant bound != 0 && frameMax != -1 ==> old(rng.tape)[1..] != []
      invariant bound != 0 ==> goal == DrawFrameMax(bound, frameMax, rng.tape)
      decreases |rng.tape|
    {
      roll := rng.Roll();
      if roll == None { return Some(OutOfNumbers), channelMax, frameMax; }
      if bound == 0 { return Some(Crash), channelMax, frameMax; }
      frameMax := Remainder(roll.value, bound);
    }
    why := None;
  }

  predicate Negotiated(why: Option<Failure>, channelMax: int, frameMax: int, tape: Tape, r: Limits)
  {
    match r
    case Chosen(c, f, rest) => why == None && channelMax == c && frameMax == f && tape == rest
    case Unchosen(w) => why == Some(w)
  }

  /** connection_tune_ok: the limits, then the packet. */
  function AssembleTuneOk(tune: Option<seq<byte>>, level: Level, base: Chain, tape: Tape, fuel: nat): Outcome
  {
    match ChooseLimits(tune, tape)
    case Unchosen(why) => Fail(why)
    case Chosen(channelMax, frameMax, rest) => Assemble(TuneOkOps(channelMax, frameMax), level, base, rest, fuel)
  }

  method ConnectionTuneOk(tune: Option<seq<byte>>, base: Chain, level: Level, rng: Rng, fuel: nat)
    returns (why: Option<Failure>, packet: array<byte>, nextState: State, responseExpected: bool)
    modifies rng
    ensures fresh(packet) && nextState == Tuned && !responseExpected
    ensures Returned(why, packet[..], rng.tape, AssembleTuneOk(tune, level, base, old(rng.tape), fuel))
  {
    hide RunOps, DecodeRule, Overwrite, At, Body, Hex, ChooseLimits;
    nextState, responseExpected := Tuned, false;
    packet := new byte[0];
    var channelMax, frameMax;
    why, channelMax, frameMax := NegotiateLimits(tune, rng);
    if why != None { return; }
    var g := new Grammar();
    ghost var ops := TuneOkOps(channelMax, frameMax);
    ghost var all := RunOps(ops, level, map[], base, rng.tape, fuel);
    Begin(ops, level, base, rng.tape, fuel);
    OverwriteStep(g, base, level, "method-id", Body([Named("m31-method-id")]), ops, 0, rng.tape, fuel, all);
    OverwriteStep(g, base, level, "method-properties", Body([Named("m31-method-properties")]), ops, 1, rng.tape, fuel,
        all);
    var frameMaxChar := LimitOctets(frameMax, 4);
    OverwriteStep(g, base, level, "frame-max", Frozen(frameMaxChar[..]), ops, 2, rng.tape, fuel, all);
    var channelMaxChar := LimitOctets(channelMax, 2);
    OverwriteStep(g, base, level, "channel-max", Frozen(channelMaxChar[..]), ops, 3, rng.tape, fuel, all);
    why, packet := Finish(g, base, level, rng, fuel, ops, 4, all);
  }

  /** A zeroed buffer with one number stored in it. */
  method LimitOctets(v: int, width: nat) returns (octets: array<byte>)
    requires width == 2 || width == 4
    ensures octets[..] == if width == 2 then BE(v % 0x1_0000, 2) else BE(v % 0x1_0000_0000, 4)
  {
    octets := new byte[width](_ => 0);
    if width == 2 { ShortInChar(octets, v, 0, 2); } else { IntInChar(octets, v, 0, 4); }
  }

  /** Negotiation at rule chaos level 0, as the peer sees it: a packet is returned exactly when the
      limits can be chosen and three numbers are left; what break_packet reads back are the limits
      chosen, so the bounds above are bounds on what goes over the wire. */
  lemma NegotiatedReadBack(args: seq<byte>, level: Level, tape: Tape, fuel: nat, tail: seq<byte>)
    requires fuel >= 6 && |args| >= 6
    ensures var c, r := ChooseLimits(Some(args), tape), AssembleTuneOk(Some(args), 0, BaseChain(level), tape, fuel);
            && (r.Ok? <==> c.Chosen? && |c.rest| >= 3)
            && (r.Ok? ==>
                  && r.rest == c.rest[3..]
                  && TuneOkSays(BreakPacket(r.octets + tail), c.channelMax, c.frameMax,
                                Heartbeat(c.rest[1], c.rest[2]))
                  && c.channelMax <= Value(args[..2])
                  && (c.frameMax == 0 || 4095 <= c.frameMax <= Value(args[2..6])))
  {
    hide ChooseLimits, BaseChain, Assemble, BreakPacket, TuneOkSays, CharInShort, CharInInt, TuneOkOps, Value,
         TuneOkFrame, Heartbeat;
    LimitsWithinOffers(args, tape);
    var c := ChooseLimits(Some(args), tape);
    if c.Chosen? {
      TuneOkPacket(c.channelMax, c.frameMax, level, c.rest, fuel);
      if |c.rest| >= 3 { TuneOkReadBack(c.channelMax, c.frameMax, level, c.rest, fuel, tail); }
    }
  }

  /** Without a Tune to answer, -1 and 65535 are announced: every bit of both fields set. */
  lemma UnaskedReadBack(level: Level, tape: Tape, fuel: nat, tail: seq<byte>)
    requires fuel >= 6
    ensures var r := AssembleTuneOk(None, 0, BaseChain(level), tape, fuel);
            && (r.Ok? <==> |tape| >= 3)
            && (r.Ok? ==> TuneOkSays(BreakPacket(r.octets + tail), 0xFFFF, 0xFFFF_FFFF, Heartbeat(tape[1], tape[2])))
  {
    hide BaseChain, Assemble, BreakPacket, TuneOkOps, Value, TuneOkFrame, Heartbeat;
    TuneOkPacket(0xFFFF, -1, level, tape, fuel);
    if |tape| >= 3 { TuneOkReadBack(0xFFFF, -1, level, tape, fuel, tail); }
  }
}
