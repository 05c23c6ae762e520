/** The packets of an orderly run: at rule chaos level 0 the builders leave nothing of their frames
    to chance but the heartbeat delay, and break_packet reads back what they meant to say. */
module Packets {
  import opened Octets
  import opened CText
  import opened Abnf
  import opened AbnfPrint
  import opened Language
  import opened Decoder
  import opened Override
  import opened Assembly
  import opened AmqpRules
  import opened AmqpGrammar
  import opened Builders
  import opened Frames

  /* --- Rules that decode to one string only, without drawing a number --- */

  ghost predicate Gives(c: Chain, n: string, b: seq<byte>, depth: nat)
  {
    forall t: Tape, fuel: nat | depth <= fuel :: DecodeRule(c, n, t, fuel) == Ok(b, t)
  }

  ghost predicate GivesAll(c: Chain, es: seq<Element>, b: seq<byte>, depth: nat)
  {
    forall t: Tape, fuel: nat | depth <= fuel :: DecodeElements(c, es, t, fuel) == Ok(b, t)
  }

  lemma GivesNothing(c: Chain, depth: nat)
    ensures GivesAll(c, ElementsOf([]), [], depth)
  {
    assert ElementsOf([]) == [];
  }

  /** A fixed symbol, a quoted string, or a name that is itself fixed. */
  ghost predicate PieceGives(c: Chain, p: Piece, b: seq<byte>, depth: nat)
  {
    || (p.Named? && Gives(c, p.name, b, depth))
    || (p.Symbol? && b == p.octets)
    || (p.Quote? && b == ShiftAll(p.text))
    || (p.Bracketed? && b == [])
  }

  lemma GivesCons(c: Chain, p: Piece, ps: seq<Piece>, x: seq<byte>, y: seq<byte>, depth: nat)
    requires PieceGives(c, p, x, depth) && GivesAll(c, ElementsOf(ps), y, depth)
    ensures GivesAll(c, ElementsOf([p] + ps), x + y, depth)
  {
    var es := ElementsOf([p] + ps);
    assert es[1..] == ElementsOf(ps);
    forall t: Tape, fuel: nat | depth <= fuel ensures DecodeElements(c, es, t, fuel) == Ok(x + y, t) {
      assert DecodeElement(c, es[0], t, fuel) == Ok(x, t);
      assert DecodeElements(c, ElementsOf(ps), t, fuel) == Ok(y, t);
    }
  }

  lemma GivesOne(c: Chain, p: Piece, x: seq<byte>, depth: nat)
    requires PieceGives(c, p, x, depth)
    ensures GivesAll(c, ElementsOf([p]), x, depth)
  {
    hide *;
    GivesNothing(c, depth);
    GivesCons(c, p, [], x, [], depth);
    assert [p] + [] == [p] && x + [] == x;
  }

  lemma GivesTwo(c: Chain, p: Piece, q: Piece, x: seq<byte>, y: seq<byte>, depth: nat)
    requires PieceGives(c, p, x, depth) && PieceGives(c, q, y, depth)
    ensures GivesAll(c, ElementsOf([p, q]), x + y, depth)
  {
    hide *;
    GivesOne(c, q, y, depth);
    GivesCons(c, p, [q], x, y, depth);
    assert [p] + [q] == [p, q];
  }

  lemma GivesThree(c: Chain, p: Piece, q: Piece, r: Piece, x: seq<byte>, y: seq<byte>, z: seq<byte>, depth: nat)
    requires PieceGives(c, p, x, depth) && PieceGives(c, q, y, depth) && PieceGives(c, r, z, depth)
    ensures GivesAll(c, ElementsOf([p, q, r]), x + y + z, depth)
  {
    hide *;
    GivesTwo(c, q, r, y, z, depth);
    GivesCons(c, p, [q, r], x, y + z, depth);
    assert [p] + [q, r] == [p, q, r] && x + (y + z) == x + y + z;
  }

  lemma GivesFour(c: Chain, p: Piece, q: Piece, r: Piece, s: Piece,
                  w: seq<byte>, x: seq<byte>, y: seq<byte>, z: seq<byte>, depth: nat)
    requires PieceGives(c, p, w, depth) && PieceGives(c, q, x, depth)
    requires PieceGives(c, r, y, depth) && PieceGives(c, s, z, depth)
    ensures GivesAll(c, ElementsOf([p, q, r, s]), w + x + y + z, depth)
  {
    hide *;
    GivesThree(c, q, r, s, x, y, z, depth);
    GivesCons(c, p, [q, r, s], w, x + y + z, depth);
    assert [p] + [q, r, s] == [p, q, r, s] && w + (x + y + z) == w + x + y + z;
  }

  lemma GivesFive(c: Chain, p: Piece, q: Piece, r: Piece, s: Piece, o: Piece,
                  v: seq<byte>, w: seq<byte>, x: seq<byte>, y: seq<byte>, z: seq<byte>, depth: nat)
    requires PieceGives(c, p, v, depth) && PieceGives(c, q, w, depth)
    requires PieceGives(c, r, x, depth) && PieceGives(c, s, y, depth) && PieceGives(c, o, z, depth)
    ensures GivesAll(c, ElementsOf([p, q, r, s, o]), v + w + x + y + z, depth)
  {
    hide *;
    GivesFour(c, q, r, s, o, w, x, y, z, depth);
    GivesCons(c, p, [q, r, s, o], v, w + x + y + z, depth);
    assert [p] + [q, r, s, o] == [p, q, r, s, o] && v + (w + x + y + z) == v + w + x + y + z;
  }

  lemma RuleGives(c: Chain, n: string, ps: seq<Piece>, b: seq<byte>, depth: nat)
    requires Defines(c, n, [ps]) && GivesAll(c, ElementsOf(ps), b, depth)
    ensures Gives(c, n, b, depth + 1)
  {
    var e := Lookup(c, n).value;
    forall t: Tape, fuel: nat | depth + 1 <= fuel ensures DecodeRule(c, n, t, fuel) == Ok(b, t) {
      assert DecodeElements(c, Elements(e.text), t, (fuel - 1) as nat) == Ok(b, t);
    }
  }

  lemma FrozenGives(c: Chain, n: string, b: seq<byte>)
    requires Lookup(c, n) == Some(Frozen(b))
    ensures Gives(c, n, b, 1)
  {
  }

  lemma GivesDeeper(c: Chain, n: string, b: seq<byte>, d: nat, d': nat)
    requires Gives(c, n, b, d) && d <= d'
    ensures Gives(c, n, b, d')
  {
  }

  /* --- Rules that end in two rolled octets --- */

  /** What OCTET decodes to: one roll, never FF. */
  function Rolled(t: Tape): Outcome
  {
    if t == [] then Fail(OutOfNumbers) else Ok([t[0] % 0xFF], t[1..])
  }

  /** What two copies of OCTET decode to: one roll for the repetition, one for each octet. */
  function TwoRolled(t: Tape): Outcome
  {
    if |t| < 3 then Fail(OutOfNumbers) else Ok([t[1] % 0xFF, t[2] % 0xFF], t[3..])
  }

  ghost predicate Rolls(c: Chain, n: string, prefix: seq<byte>, depth: nat)
  {
    forall t: Tape, fuel: nat | depth <= fuel :: DecodeRule(c, n, t, fuel) == Prepend(prefix, TwoRolled(t))
  }

  ghost predicate RollsAll(c: Chain, es: seq<Element>, prefix: seq<byte>, depth: nat)
  {
    forall t: Tape, fuel: nat | depth <= fuel :: DecodeElements(c, es, t, fuel) == Prepend(prefix, TwoRolled(t))
  }

  lemma PrependTwice(x: seq<byte>, y: seq<byte>, r: Outcome)
    ensures Prepend(x, Prepend(y, r)) == Prepend(x + y, r)
  {
    if r.Ok? { assert x + (y + r.octets) == x + y + r.octets; }
  }

  lemma RollsCons(c: Chain, p: Piece, ps: seq<Piece>, x: seq<byte>, prefix: seq<byte>, depth: nat)
    requires PieceGives(c, p, x, depth) && RollsAll(c, ElementsOf(ps), prefix, depth)
    ensures RollsAll(c, ElementsOf([p] + ps), x + prefix, depth)
  {
    hide TwoRolled;
    var es := ElementsOf([p] + ps);
    assert es[1..] == ElementsOf(ps);
    forall t: Tape, fuel: nat | depth <= fuel
      ensures DecodeElements(c, es, t, fuel) == Prepend(x + prefix, TwoRolled(t))
    {
      assert DecodeElement(c, es[0], t, fuel) == Ok(x, t);
      assert DecodeElements(c, ElementsOf(ps), t, fuel) == Prepend(prefix, TwoRolled(t));
      PrependTwice(x, prefix, TwoRolled(t));
    }
  }

  lemma RollsLast(c: Chain, n: string, prefix: seq<byte>, depth: nat)
    requires Rolls(c, n, prefix, depth)
    ensures RollsAll(c, ElementsOf([Named(n)]), prefix, depth)
  {
    hide TwoRolled;
    var es := ElementsOf([Named(n)]);
    assert es[1..] == [];
    forall t: Tape, fuel: nat | depth <= fuel
      ensures DecodeElements(c, es, t, fuel) == Prepend(prefix, TwoRolled(t))
    {
      var r := DecodeRule(c, n, t, fuel);
      assert r == Prepend(prefix, TwoRolled(t));
      if r.Ok? { assert r.octets + [] == r.octets; }
    }
  }

  lemma RollsThree(c: Chain, p: Piece, q: Piece, r: Piece, x: seq<byte>, y: seq<byte>, prefix: seq<byte>, depth: nat)
    requires PieceGives(c, p, x, depth) && PieceGives(c, q, y, depth) && RollsAll(c, ElementsOf([r]), prefix, depth)
    ensures RollsAll(c, ElementsOf([p, q, r]), x + y + prefix, depth)
  {
    hide *;
    RollsCons(c, q, [r], y, prefix, depth);
    assert [q] + [r] == [q, r];
    RollsCons(c, p, [q, r], x, y + prefix, depth);
    assert [p] + [q, r] == [p, q, r] && x + (y + prefix) == x + y + prefix;
  }

  lemma RollsAt(c: Chain, n: string, prefix: seq<byte>, depth: nat, t: Tape, fuel: nat)
    requires Rolls(c, n, prefix, depth) && depth <= fuel
    ensures DecodeRule(c, n, t, fuel)
         == if |t| < 3 then Fail(OutOfNumbers) else Ok(prefix + [t[1] % 0xFF, t[2] % 0xFF], t[3..])
  {
    hide DecodeRule;
  }

  lemma RuleRolls(c: Chain, n: string, ps: seq<Piece>, prefix: seq<byte>, depth: nat)
    requires Defines(c, n, [ps]) && RollsAll(c, ElementsOf(ps), prefix, depth)
    ensures Rolls(c, n, prefix, depth + 1)
  {
    hide TwoRolled, Prepend;
    var e := Lookup(c, n).value;
    forall t: Tape, fuel: nat | depth + 1 <= fuel
      ensures DecodeRule(c, n, t, fuel) == Prepend(prefix, TwoRolled(t))
    {
      assert DecodeElements(c, Elements(e.text), t, (fuel - 1) as nat) == Prepend(prefix, TwoRolled(t));
    }
  }

  lemma AliasRolls(c: Chain, n: string, x: string, prefix: seq<byte>, depth: nat)
    requires Defines(c, n, [[Named(x)]]) && Rolls(c, x, prefix, depth)
    ensures Rolls(c, n, prefix, depth + 1)
  {
    hide *;
    RollsLast(c, x, prefix, depth);
    RuleRolls(c, n, [Named(x)], prefix, depth);
  }

  /** A rule of one piece decodes as that piece. */
  lemma RuleOfOne(c: Chain, n: string, p: Piece, t: Tape, fuel: nat)
    requires Defines(c, n, [[p]]) && fuel >= 1
    ensures DecodeRule(c, n, t, fuel) == DecodeElement(c, ElementOf(p), t, fuel - 1)
  {
    hide ElementOf;
    var e := Lookup(c, n).value;
    var es := ElementsOf([p]);
    assert es == [ElementOf(p)] && es[1..] == [];
    assert DecodeRule(c, n, t, fuel) == DecodeElements(c, es, t, fuel - 1);
    OneElement(c, ElementOf(p), t, fuel - 1);
  }

  lemma OneDigit(v: nat)
    requires v < 256
    ensures BE(v, 1) == [v] && Width(0xFF) == 1
  {
    assert BE(v, 1) == BE(v / RADIX, 0) + [v % RADIX];
    assert Width(0xFF) == 1 + Width(0);
  }

  lemma OctetRange()
    ensures ElementOf(HexTo([0x00], [0xFF])) == Range(0, 0xFF)
  {
    assert [0x00][..0] == [] && [0xFF][..0] == [];
    assert Value([0x00]) == 0 && Value([0xFF]) == 0xFF;
  }

  lemma OctetRolled(c: Chain, t: Tape, fuel: nat)
    ensures DecodeElement(c, ElementOf(HexTo([0x00], [0xFF])), t, fuel) == Rolled(t)
  {
    hide BE, Width, Value, ElementOf;
    OctetRange();
    if t != [] {
      RangeRolls(c, 0, 0xFF, t, fuel);
      OneDigit(t[0] % 0xFF);
    }
  }

  lemma PairRolls(c: Chain, n: string, x: string)
    requires Defines(c, n, [[Exactly(2, Named(x))]]) && Defines(c, x, [[HexTo([0x00], [0xFF])]])
    ensures Rolls(c, n, [], 2)
  {
    hide Defines, DecodeRule;
    var p := Exactly(2, Named(x));
    assert ElementOf(p) == Repeat(2, 2, Rule(x)) by { assert ElementOf(Named(x)) == Rule(x); }
    forall t: Tape, fuel: nat | 2 <= fuel ensures DecodeRule(c, n, t, fuel) == Prepend([], TwoRolled(t)) {
      RuleOfOne(c, n, p, t, fuel);
      if t != [] {
        var u := t[1..];
        RuleOfOne(c, x, HexTo([0x00], [0xFF]), u, fuel - 1);
        OctetRolled(c, u, fuel - 2);
        if u != [] {
          RuleOfOne(c, x, HexTo([0x00], [0xFF]), u[1..], fuel - 1);
          OctetRolled(c, u[1..], fuel - 2);
        }
        TwoCopies(c, x, u, fuel - 1);
        assert |u| >= 2 ==> u[0] == t[1] && u[1] == t[2] && u[2..] == t[3..];
      }
    }
  }

  lemma TwoCopies(c: Chain, x: string, u: Tape, fuel: nat)
    requires DecodeRule(c, x, u, fuel) == Rolled(u)
    requires u != [] ==> DecodeRule(c, x, u[1..], fuel) == Rolled(u[1..])
    ensures DecodeTimes(c, Rule(x), 2, u, fuel)
         == if |u| < 2 then Fail(OutOfNumbers) else Ok([u[0] % 0xFF, u[1] % 0xFF], u[2..])
  {
    hide DecodeRule;
    if |u| >= 2 {
      assert u[1..][1..] == u[2..];
      assert DecodeTimes(c, Rule(x), 0, u[2..], fuel) == Ok([], u[2..]);
      assert DecodeTimes(c, Rule(x), 1, u[1..], fuel) == Ok([u[1] % 0xFF] + [], u[2..]);
      assert [u[0] % 0xFF] + ([u[1] % 0xFF] + []) == [u[0] % 0xFF, u[1] % 0xFF];
    } else if |u| == 1 {
      assert DecodeTimes(c, Rule(x), 1, u[1..], fuel) == Fail(OutOfNumbers);
    }
  }

  /* --- The envelope --- */

  /** A table in front that does not define a name leaves it to the base. */
  lemma Behind(h: Table, base: Chain, n: string, alts: seq<seq<Piece>>)
    requires n !in h && Defines(base, n, alts)
    ensures Defines([h] + base, n, alts)
  {
    var c := [h] + base;
    assert c[1..] == base;
  }

  lemma InFront(h: Table, base: Chain, n: string)
    requires n in h
    ensures Lookup([h] + base, n) == Some(h[n])
  {
  }

  lemma BodyDefines(h: Table, base: Chain, n: string, ps: seq<Piece>)
    requires n in h && h[n] == Body(ps) && ValidAll(ps)
    ensures Defines([h] + base, n, [ps])
  {
    MadeMeans([ps]);
  }

  /** The tables that leave the frame rules alone. */
  predicate PlainEnvelope(h: Table)
  {
    "method" !in h && "method-frame" !in h && "frame-properties" !in h && "channel" !in h && "frame-end" !in h
  }

  /** With the payload and its size frozen, "method" is one fixed frame. */
  lemma SealedMethod(h: Table, level: Level, P: seq<byte>, size: seq<byte>)
    requires PlainEnvelope(h)
    requires "method-payload" in h && h["method-payload"] == Frozen(P)
    requires "payload-size" in h && h["payload-size"] == Frozen(size)
    ensures Gives([h] + BaseChain(level), "method", [1, 0, 0] + size + P + [0xCE], 4)
  {
    hide BaseChain, IsBase, Gives, GivesAll, Defines, Lookup;
    var base, c := BaseChain(level), [h] + BaseChain(level);
    BaseModels(level);
    InFront(h, base, "method-payload");
    InFront(h, base, "payload-size");
    FrozenGives(c, "method-payload", P);
    FrozenGives(c, "payload-size", size);
    Channel(base);
    Behind(h, base, "channel", [[Hex([0x00, 0x00])]]);
    GivesOne(c, Hex([0x00, 0x00]), [0, 0], 0);
    RuleGives(c, "channel", [Hex([0x00, 0x00])], [0, 0], 0);
    FrameProperties(base);
    Behind(h, base, "frame-properties", [[Named("channel"), Named("payload-size")]]);
    GivesTwo(c, Named("channel"), Named("payload-size"), [0, 0], size, 1);
    RuleGives(c, "frame-properties", [Named("channel"), Named("payload-size")], [0, 0] + size, 1);
    SealedFrame(h, base, P, [0, 0] + size) by { BaseModels(level); }
    assert [1] + ([0, 0] + size) + P + [0xCE] == [1, 0, 0] + size + P + [0xCE];
  }

  lemma SealedFrame(h: Table, base: Chain, P: seq<byte>, properties: seq<byte>)
    requires IsBase(base) && PlainEnvelope(h)
    requires Gives([h] + base, "method-payload", P, 1) && Gives([h] + base, "frame-properties", properties, 2)
    ensures Gives([h] + base, "method", [1] + properties + P + [0xCE], 4)
  {
    hide IsBase, Gives, GivesAll, Defines, Lookup;
    var c := [h] + base;
    FrameEnd(base);
    Behind(h, base, "frame-end", [[Hex([0xCE])]]);
    GivesOne(c, Hex([0xCE]), [0xCE], 0);
    RuleGives(c, "frame-end", [Hex([0xCE])], [0xCE], 0);
    GivesDeeper(c, "frame-end", [0xCE], 1, 2);
    GivesDeeper(c, "method-payload", P, 1, 2);
    MethodFrame(base);
    var ps := [Dec([1]), Named("frame-properties"), Named("method-payload"), Named("frame-end")];
    Behind(h, base, "method-frame", [ps]);
    GivesFour(c, Dec([1]), Named("frame-properties"), Named("method-payload"), Named("frame-end"), [1], properties, P,
        [0xCE], 2);
    var b := [1] + properties + P + [0xCE];
    RuleGives(c, "method-frame", ps, b, 2);
    AmqpGrammar.Method(base);
    Behind(h, base, "method", [[Named("method-frame")]]);
    GivesOne(c, Named("method-frame"), b, 3);
    RuleGives(c, "method", [Named("method-frame")], b, 3);
  }

  /* --- Sealing --- */

  lemma EnvelopeOctets(P: seq<byte>)
    ensures FrameOctets(METHOD, 0, P) == [1, 0, 0] + BE(|P| % 0x1_0000_0000, 4) + P + [0xCE]
  {
    var head := [METHOD] + BE(0, 2);
    assert head == [1, 0, 0] by { BE2(0); }
    hide BE;
    assert FrameOctets(METHOD, 0, P) == head + BE(|P| % 0x1_0000_0000, 4) + P + [FRAME_END];
  }

  lemma FourOctets(n: nat)
    ensures LengthOctets(n, 4) == BE(n % 0x1_0000_0000, 4)
  {
    assert Zeros(0) == [];
  }

  /** Freezing the payload with its size at level 0, then decoding "method": the frame around
      whatever the payload decoded to. */
  lemma Sealed(h: Table, level: Level, tape: Tape, fuel: nat)
    requires PlainEnvelope(h) && 4 <= fuel
    ensures var base := BaseChain(level);
            var r := DecodeRule([h] + base, "method-payload", tape, fuel);
            var q := RunOp(Sealing(), 0, h, base, tape, fuel);
            && (r.Fail? ==> q == Stuck(r.why))
            && (r.Ok? ==> q.Done? && q.rest == r.rest)
            && (r.Ok? ==> forall t: Tape ::
                  DecodeRule([q.head] + base, "method", t, fuel) == Ok(FrameOctets(METHOD, 0, r.octets), t))
  {
    hide BaseChain, DecodeRule, LengthOctets, FrameOctets, Lookup;
    var base := BaseChain(level);
    var r := DecodeRule([h] + base, "method-payload", tape, fuel);
    if r.Ok? {
      var P, q := r.octets, RunOp(Sealing(), 0, h, base, tape, fuel);
      var size := LengthOctets(|P|, 4);
      assert q.head == h["method-payload" := Frozen(P)]["payload-size" := Frozen(size)];
      SealedMethod(q.head, level, P, size);
      EnvelopeOctets(P);
      FourOctets(|P|);
      assert Gives([q.head] + base, "method", FrameOctets(METHOD, 0, P), 4);
    }
  }

  /** A packet whose payload is short enough is read back field by field, whatever follows it. */
  lemma ReadBack(P: seq<byte>, tail: seq<byte>)
    requires 4 <= |P| < 0x8000
    ensures BreakPacket(FrameOctets(METHOD, 0, P) + tail)
         == Some(Packet(METHOD, 0, |P|, [], Some(Method(Value(P[..2]), Value(P[2..4]), P[4..]))))
  {
    hide BreakPacket, FrameOctets, Value;
    assert !Bit15(|P|);
    FrameRoundTrip(METHOD, 0, P, tail);
  }

  /** Together: whatever table a builder has set up, the payload it freezes at level 0 comes back
      out of break_packet whole, under the class and method ids it starts with. */
  lemma SealedReadBack(h: Table, level: Level, tape: Tape, fuel: nat, more: Tape, tail: seq<byte>)
    requires PlainEnvelope(h) && 4 <= fuel
    requires var r := DecodeRule([h] + BaseChain(level), "method-payload", tape, fuel);
             r.Ok? && 4 <= |r.octets| < 0x8000
    ensures var base := BaseChain(level);
            var P := DecodeRule([h] + base, "method-payload", tape, fuel).octets;
            var q := RunOp(Sealing(), 0, h, base, tape, fuel);
            && q.Done?
            && var r := DecodeRule([q.head] + base, "method", more, fuel);
               && r.Ok?
               && BreakPacket(r.octets + tail)
               == Some(Packet(METHOD, 0, |P|, [], Some(Method(Value(P[..2]), Value(P[2..4]), P[4..]))))
  {
    hide BaseChain, DecodeRule, FrameOctets, Lookup, BreakPacket, Value, RunOp;
    Sealed(h, level, tape, fuel);
    ReadBack(DecodeRule([h] + BaseChain(level), "method-payload", tape, fuel).octets, tail);
  }

  /* --- Level 0 overrides are plain updates --- */

  lemma RunRest(op: Op, ops: seq<Op>, t: Table, base: Chain, tape: Tape, fuel: nat)
    ensures var q := RunOp(op, 0, t, base, tape, fuel);
            RunOps([op] + ops, 0, t, base, tape, fuel)
            == if q.Stuck? then q else RunOps(ops, 0, q.head, base, q.rest, fuel)
  {
    assert ([op] + ops)[1..] == ops;
  }

  lemma RunOverwriting(rule: string, entry: Entry, ops: seq<Op>, t: Table, base: Chain, tape: Tape, fuel: nat)
    ensures RunOps([Overwriting(rule, entry)] + ops, 0, t, base, tape, fuel)
         == RunOps(ops, 0, t[rule := entry], base, tape, fuel)
  {
    RunRest(Overwriting(rule, entry), ops, t, base, tape, fuel);
  }

  lemma RunFreezing(rule: string, lengthRule: string, d: seq<byte>, depth: nat, ops: seq<Op>,
                    t: Table, base: Chain, tape: Tape, fuel: nat)
    requires Gives([t] + base, rule, d, depth) && depth <= fuel
    ensures RunOps([Freezing(rule, lengthRule, 4)] + ops, 0, t, base, tape, fuel)
         == RunOps(ops, 0, t[rule := Frozen(d)][lengthRule := Frozen(BE(|d| % 0x1_0000_0000, 4))], base, tape, fuel)
  {
    RunRest(Freezing(rule, lengthRule, 4), ops, t, base, tape, fuel);
    FourOctets(|d|);
    assert DecodeRule([t] + base, rule, tape, fuel) == Ok(d, tape);
  }

  /** The end of every builder, when the payload is fixed. */
  lemma RunSealing(h: Table, level: Level, P: seq<byte>, depth: nat, tape: Tape, fuel: nat)
    requires PlainEnvelope(h) && Gives([h] + BaseChain(level), "method-payload", P, depth) && depth <= fuel && 4 <= fuel
    ensures var q := RunOps([Sealing()], 0, h, BaseChain(level), tape, fuel);
            && q.Done? && q.rest == tape
            && DecodeRule([q.head] + BaseChain(level), "method", tape, fuel) == Ok(FrameOctets(METHOD, 0, P), tape)
  {
    hide BaseChain, PlainEnvelope, FrameOctets;
    assert DecodeRule([h] + BaseChain(level), "method-payload", tape, fuel) == Ok(P, tape);
    Sealed(h, level, tape, fuel);
    RunRest(Sealing(), [], h, BaseChain(level), tape, fuel);
    assert [Sealing()] + [] == [Sealing()];
  }
}
