/** The five packets of rule chaos level 0, octet by octet. */
module OrderlyPackets {
  import opened Octets
  import opened CText
  import opened Abnf
  import opened AbnfPrint
  import opened Language
  import opened Decoder
  import opened Override
  import opened Assembly
  import opened AmqpRules
  import opened AmqpGrammar
  import AmqpBounds
  import opened Builders
  import opened Frames
  import opened Packets
  import opened PlainText
  import opened Termination

  /** Every rule some builder overrides. */
  const OVERRIDDEN: set<string> := {
    "method-id", "method-properties", "client-properties-payload", "client-properties-length", "authcid",
    "passwd", "message", "message-length", "method-payload", "payload-size", "frame-max", "channel-max",
    "virtual-host", "reply-code", "reply-text", "m50-class-id-val", "m50-method-id-val"
  }

  ghost predicate Touches(h: Table) { h.Keys <= OVERRIDDEN }

  lemma FramesUntouched()
    ensures "method" !in OVERRIDDEN
    ensures "method-frame" !in OVERRIDDEN
    ensures "frame-properties" !in OVERRIDDEN
    ensures "channel" !in OVERRIDDEN
    ensures "frame-end" !in OVERRIDDEN
    ensures "class-id" !in OVERRIDDEN
  {
  }

  lemma IdsUntouched()
    ensures "m11-method-id" !in OVERRIDDEN
    ensures "m31-method-id" !in OVERRIDDEN
    ensures "m40-method-id" !in OVERRIDDEN
    ensures "m50-method-id" !in OVERRIDDEN
    ensures "m51-method-id" !in OVERRIDDEN
  {
  }

  lemma PropertiesUntouched()
    ensures "m11-method-properties" !in OVERRIDDEN
    ensures "m31-method-properties" !in OVERRIDDEN
    ensures "m40-method-properties" !in OVERRIDDEN
    ensures "m50-method-properties" !in OVERRIDDEN
    ensures "m51-method-properties" !in OVERRIDDEN
  {
  }

  lemma StartOkUntouched()
    ensures "client-properties" !in OVERRIDDEN
    ensures "mechanism" !in OVERRIDDEN
    ensures "response" !in OVERRIDDEN
    ensures "locale" !in OVERRIDDEN
    ensures "UTF8NUL" !in OVERRIDDEN
  {
  }

  lemma IdsValid()
    ensures Valid(Named("m11-method-id"))
    ensures Valid(Named("m31-method-id"))
    ensures Valid(Named("m40-method-id"))
    ensures Valid(Named("m50-method-id"))
    ensures Valid(Named("m51-method-id"))
  {
    hide *;
    StartOkWords();
    TuneOkWords();
    OpenCloseWords();
    OpenCloseWords''();
    NameValid("m11-method-id");
    NameValid("m31-method-id");
    NameValid("m40-method-id");
    NameValid("m50-method-id");
    NameValid("m51-method-id");
  }

  lemma PropertiesValid()
    ensures Valid(Named("m11-method-properties"))
    ensures Valid(Named("m31-method-properties"))
    ensures Valid(Named("m40-method-properties"))
    ensures Valid(Named("m50-method-properties"))
    ensures Valid(Named("m51-method-properties"))
  {
    hide *;
    StartOkWords();
    TuneOkWords();
    OpenCloseWords();
    OpenCloseWords'();
    CloseOkWord();
    NameValid("m11-method-properties");
    NameValid("m31-method-properties");
    NameValid("m40-method-properties");
    NameValid("m50-method-properties");
    NameValid("m51-method-properties");
  }

  lemma CloseOkWord()
    ensures Name("m51-method-properties")
  {
  }

  lemma TouchesEnvelope(h: Table)
    requires Touches(h)
    ensures PlainEnvelope(h)
  {
    hide OVERRIDDEN;
    FramesUntouched();
  }

  /** The class and method ids in front of the method's own properties. */
  lemma PayloadGives(h: Table, level: Level, id: string, props: string, idOctets: seq<byte>, args: seq<byte>,
      depth: nat)
    requires Touches(h) && "method-payload" !in h && depth >= 2
    requires "method-id" in h && h["method-id"] == Body([Named(id)]) && Valid(Named(id))
    requires "method-properties" in h && h["method-properties"] == Body([Named(props)]) && Valid(Named(props))
    requires Gives([h] + BaseChain(level), id, idOctets, 1) && Gives([h] + BaseChain(level), props, args, depth)
    ensures Gives([h] + BaseChain(level), "method-payload", [0, 10] + idOctets + args, depth + 2)
  {
    hide BaseChain, IsBase, Gives, GivesAll, Defines, Lookup, OVERRIDDEN, Body;
    var base, c := BaseChain(level), [h] + BaseChain(level);
    BaseModels(level);
    FramesUntouched();
    ClassId(base);
    SymbolGives(h, base, "class-id", [0, 10]);
    GivesDeeper(c, "class-id", [0, 10], 1, depth + 1);
    AliasGives(h, base, "method-id", id, idOctets, 1);
    GivesDeeper(c, "method-id", idOctets, 2, depth + 1);
    AliasGives(h, base, "method-properties", props, args, depth);
    MethodPayload(base);
    var ps := [Named("class-id"), Named("method-id"), Named("method-properties")];
    Behind(h, base, "method-payload", [ps]);
    GivesThree(c, Named("class-id"), Named("method-id"), Named("method-properties"), [0, 10], idOctets, args,
        depth + 1);
    RuleGives(c, "method-payload", ps, [0, 10] + idOctets + args, depth + 1);
  }

  lemma AliasGives(h: Table, base: Chain, n: string, target: string, b: seq<byte>, depth: nat)
    requires n in h && h[n] == Body([Named(target)]) && Valid(Named(target)) && Gives([h] + base, target, b, depth)
    ensures Gives([h] + base, n, b, depth + 1)
  {
    hide Gives, GivesAll, Defines, Body;
    BodyDefines(h, base, n, [Named(target)]);
    GivesOne([h] + base, Named(target), b, depth);
    RuleGives([h] + base, n, [Named(target)], b, depth);
  }

  /** A rule of the base environment that is one fixed symbol. */
  lemma SymbolGives(h: Table, base: Chain, n: string, octets: seq<byte>)
    requires n !in h && Defines(base, n, [[Hex(octets)]])
    ensures Gives([h] + base, n, octets, 1)
  {
    hide Gives, GivesAll, Defines;
    var p := Hex(octets);
    Behind(h, base, n, [[p]]);
    GivesOne([h] + base, p, octets, 0);
    RuleGives([h] + base, n, [p], octets, 0);
  }

  /** A rule overridden by one fixed symbol or quoted string. */
  lemma FixedGives(h: Table, base: Chain, n: string, p: Piece, b: seq<byte>)
    requires n in h && h[n] == Body([p]) && Valid(p)
    requires (p.Symbol? && b == p.octets) || (p.Quote? && b == ShiftAll(p.text))
    ensures Gives([h] + base, n, b, 1)
  {
    hide Gives, GivesAll, Defines, Body, ShiftAll;
    BodyDefines(h, base, n, [p]);
    GivesOne([h] + base, p, b, 0);
    RuleGives([h] + base, n, [p], b, 0);
  }

  /* --- The tables the builders end up with --- */

  function WithMethod(id: string, props: string): Table
  {
    map["method-id" := Body([Named(id)])]["method-properties" := Body([Named(props)])]
  }

  predicate MethodTable(h: Table, id: string, props: string)
  {
    && h.Keys <= OVERRIDDEN && "method-payload" !in h
    && "method-id" in h && h["method-id"] == Body([Named(id)])
    && "method-properties" in h && h["method-properties"] == Body([Named(props)])
  }

  lemma WithMethodIs(id: string, props: string)
    ensures MethodTable(WithMethod(id, props), id, props)
    ensures WithMethod(id, props).Keys == {"method-id", "method-properties"}
  {
    hide Body;
  }

  /** Further overrides leave the two renamings alone. */
  lemma StillMethodTable(h: Table, id: string, props: string, n: string, e: Entry)
    requires MethodTable(h, id, props) && n in OVERRIDDEN
    requires n != "method-id" && n != "method-properties" && n != "method-payload"
    ensures MethodTable(h[n := e], id, props)
  {
    hide OVERRIDDEN, Body;
  }

  lemma FirstTwo(id: string, props: string, ops: seq<Op>, base: Chain, tape: Tape, fuel: nat)
    ensures RunOps([Renaming("method-id", id), Renaming("method-properties", props)] + ops, 0, map[], base, tape, fuel)
         == RunOps(ops, 0, WithMethod(id, props), base, tape, fuel)
  {
    hide RunOps, Body;
    var x, y := Renaming("method-id", id), Renaming("method-properties", props);
    assert [x, y] + ops == [x] + ([y] + ops);
    RunOverwriting("method-id", Body([Named(id)]), [y] + ops, map[], base, tape, fuel);
    RunOverwriting("method-properties", Body([Named(props)]), ops, map["method-id" := Body([Named(id)])], base, tape,
        fuel);
  }

  /** Sealing a table whose method properties are fixed gives the whole packet. */
  lemma SealedPacket(h: Table, level: Level, id: string, props: string, idOctets: seq<byte>, args: seq<byte>,
      depth: nat, tape: Tape, fuel: nat)
    requires MethodTable(h, id, props) && Valid(Named(id)) && Valid(Named(props)) && depth >= 2 && depth + 2 <= fuel
    requires Gives([h] + BaseChain(level), id, idOctets, 1) && Gives([h] + BaseChain(level), props, args, depth)
    ensures var q := RunOps([Sealing()], 0, h, BaseChain(level), tape, fuel);
            && q.Done?
            && DecodeRule([q.head] + BaseChain(level), "method", q.rest, fuel)
            == Ok(FrameOctets(METHOD, 0, [0, 10] + idOctets + args), tape)
  {
    hide BaseChain, Gives, FrameOctets, RunOps, DecodeRule, OVERRIDDEN, Body;
    TouchesEnvelope(h);
    PayloadGives(h, level, id, props, idOctets, args, depth);
    RunSealing(h, level, [0, 10] + idOctets + args, depth + 2, tape, fuel);
  }

  /** From the last table to the builder's result. */
  lemma PacketOf(ops: seq<Op>, h: Table, level: Level, id: string, props: string, idOctets: seq<byte>, args: seq<byte>,
                 depth: nat, tape: Tape, fuel: nat)
    requires RunOps(ops, 0, map[], BaseChain(level), tape, fuel)
          == RunOps([Sealing()], 0, h, BaseChain(level), tape, fuel)
    requires MethodTable(h, id, props) && Valid(Named(id)) && Valid(Named(props)) && depth >= 2 && depth + 2 <= fuel
    requires Gives([h] + BaseChain(level), id, idOctets, 1) && Gives([h] + BaseChain(level), props, args, depth)
    ensures Assemble(ops, 0, BaseChain(level), tape, fuel)
         == Ok(FrameOctets(METHOD, 0, [0, 10] + idOctets + args), tape)
  {
    hide BaseChain, Gives, FrameOctets, RunOps, DecodeRule, MethodTable;
    SealedPacket(h, level, id, props, idOctets, args, depth, tape, fuel);
  }

  /* --- Close-Ok --- */

  lemma Nothing51(level: Level, h: Table)
    requires h.Keys <= OVERRIDDEN
    ensures Gives([h] + BaseChain(level), "m51-method-properties", [], 2)
  {
    hide BaseChain, OVERRIDDEN, CONNECTION, PROTOCOL, Special, AmqpBounds.BOUNDS, TagOf, Unlisted;
    BaseModels(level);
    PropertiesUntouched();
    AmqpBounds.LongerAt();
    AmqpBounds.BoundedOrdinary("m51-method-properties");
    AmqpBounds.M51MethodPropertiesUnlisted();
    AmqpBounds.UndefinedLookup(BaseChain(level), "m51-method-properties");
    var c := [h] + BaseChain(level);
    assert c[1..] == BaseChain(level);
  }

  lemma CloseOkTable(base: Chain, tape: Tape, fuel: nat)
    ensures RunOps(CloseOkOps(), 0, map[], base, tape, fuel)
         == RunOps([Sealing()], 0, WithMethod("m51-method-id", "m51-method-properties"), base, tape, fuel)
  {
    hide RunOps, WithMethod, Renaming, Sealing;
    var id, props := "m51-method-id", "m51-method-properties";
    assert CloseOkOps() == [Renaming("method-id", id), Renaming("method-properties", props)] + [Sealing()];
    FirstTwo(id, props, [Sealing()], base, tape, fuel);
  }

  lemma CloseOkPacket(level: Level, tape: Tape, fuel: nat)
    requires fuel >= 4
    ensures Assemble(CloseOkOps(), 0, BaseChain(level), tape, fuel)
         == Ok(FrameOctets(METHOD, 0, [0, 10] + [0, 51] + []), tape)
  {
    hide *;
    var base := BaseChain(level);
    var id, props := "m51-method-id", "m51-method-properties";
    var h := WithMethod(id, props);
    CloseOkTable(base, tape, fuel);
    WithMethodIs(id, props);
    TableKeys(h, id, props);
    BaseModels(level);
    IdsUntouched();
    IdsValid();
    PropertiesValid();
    M51MethodId(base);
    SymbolGives(h, base, id, [0, 51]);
    Nothing51(level, h);
    PacketOf(CloseOkOps(), h, level, id, props, [0, 51], [], 2, tape, fuel);
  }

  lemma TableKeys(h: Table, id: string, props: string)
    requires MethodTable(h, id, props)
    ensures h.Keys <= OVERRIDDEN
  {
  }

  /** One more override that leaves the payload rules alone, and what it adds. */
  lemma Extended(h: Table, base: Chain, id: string, props: string, n: string, entry: Entry, ops: seq<Op>, tape: Tape,
      fuel: nat)
    requires MethodTable(h, id, props) && Extra(n)
    ensures MethodTable(h[n := entry], id, props)
    ensures RunOps([Overwriting(n, entry)] + ops, 0, h, base, tape, fuel)
         == RunOps(ops, 0, h[n := entry], base, tape, fuel)
  {
    hide RunOps, MethodTable;
    StillMethodTable(h, id, props, n, entry);
    RunOverwriting(n, entry, ops, h, base, tape, fuel);
  }

  predicate Extra(n: string)
  {
    n in OVERRIDDEN && n != "method-id" && n != "method-properties" && n != "method-payload"
  }

  /* --- Open --- */

  function OpenTable(): Table
  {
    WithMethod("m40-method-id", "m40-method-properties")["virtual-host" := Body([Hex([0x01, 0x2F])])]
  }

  lemma VirtualHostExtra() ensures Extra("virtual-host") { }

  lemma OpenRuns(base: Chain, tape: Tape, fuel: nat)
    ensures RunOps(OpenOps(), 0, map[], base, tape, fuel) == RunOps([Sealing()], 0, OpenTable(), base, tape, fuel)
    ensures MethodTable(OpenTable(), "m40-method-id", "m40-method-properties")
  {
    hide RunOps, WithMethod, Renaming, Sealing, Body, MethodTable, Extra;
    var id, props := "m40-method-id", "m40-method-properties";
    var host := Overwriting("virtual-host", Body([Hex([0x01, 0x2F])]));
    assert OpenOps() == [Renaming("method-id", id), Renaming("method-properties", props)] + ([host] + [Sealing()]);
    FirstTwo(id, props, [host] + [Sealing()], base, tape, fuel);
    WithMethodIs(id, props);
    VirtualHostExtra();
    Extended(WithMethod(id, props), base, id, props, "virtual-host", Body([Hex([0x01, 0x2F])]), [Sealing()], tape,
        fuel);
  }

  lemma OpenProperties(level: Level, h: Table)
    requires h.Keys <= OVERRIDDEN && "virtual-host" in h && h["virtual-host"] == Body([Hex([0x01, 0x2F])])
    ensures Gives([h] + BaseChain(level), "m40-method-properties", [0x01, 0x2F] + [0] + [0], 2)
  {
    hide BaseChain, IsBase, Gives, GivesAll, Defines, OVERRIDDEN, Body;
    var base, c := BaseChain(level), [h] + BaseChain(level);
    BaseModels(level);
    FixedGives(h, base, "virtual-host", Hex([0x01, 0x2F]), [0x01, 0x2F]);
    PropertiesUntouched();
    M40MethodProperties(base);
    var ps := [Named("virtual-host"), Dec([0]), Dec([0])];
    Behind(h, base, "m40-method-properties", [ps]);
    GivesThree(c, Named("virtual-host"), Dec([0]), Dec([0]), [0x01, 0x2F], [0], [0], 1);
    RuleGives(c, "m40-method-properties", ps, [0x01, 0x2F] + [0] + [0], 1);
  }

  lemma OpenPacket(level: Level, tape: Tape, fuel: nat)
    requires fuel >= 4
    ensures Assemble(OpenOps(), 0, BaseChain(level), tape, fuel)
         == Ok(FrameOctets(METHOD, 0, [0, 10] + [0, 40] + ([0x01, 0x2F] + [0] + [0])), tape)
  {
    hide *;
    var base, h := BaseChain(level), OpenTable();
    var id, props := "m40-method-id", "m40-method-properties";
    OpenRuns(base, tape, fuel);
    TableKeys(h, id, props);
    OpenEntries();
    BaseModels(level);
    IdsUntouched();
    IdsValid();
    PropertiesValid();
    M40MethodId(base);
    SymbolGives(h, base, id, [0, 40]);
    OpenProperties(level, h);
    PacketOf(OpenOps(), h, level, id, props, [0, 40], [0x01, 0x2F] + [0] + [0], 2, tape, fuel);
  }

  lemma OpenEntries()
    ensures "virtual-host" in OpenTable() && OpenTable()["virtual-host"] == Body([Hex([0x01, 0x2F])])
  {
  }

  /* --- Close --- */

  function CloseTable(): Table
  {
    WithMethod("m50-method-id", "m50-method-properties")
      ["reply-code" := Body([Hex([0x00, 0xC8])])]["reply-text" := Body([Hex([0x03, 0x32, 0x30, 0x30])])]
      ["m50-class-id-val" := Body([Hex([0x00, 0x00])])]["m50-method-id-val" := Body([Hex([0x00, 0x00])])]
  }

  lemma CloseExtra()
    ensures Extra("reply-code") && Extra("reply-text") && Extra("m50-class-id-val") && Extra("m50-method-id-val")
  {
  }

  lemma CloseRuns(base: Chain, tape: Tape, fuel: nat)
    ensures RunOps(CloseOps(), 0, map[], base, tape, fuel) == RunOps([Sealing()], 0, CloseTable(), base, tape, fuel)
    ensures MethodTable(CloseTable(), "m50-method-id", "m50-method-properties")
  {
    hide RunOps, WithMethod, Renaming, Sealing, Body, MethodTable, Extra, Hex;
    var id, props := "m50-method-id", "m50-method-properties";
    var e1, e2, e3 := Body([Hex([0x00, 0xC8])]), Body([Hex([0x03, 0x32, 0x30, 0x30])]), Body([Hex([0x00, 0x00])]);
    var r4 := [Overwriting("m50-method-id-val", e3)] + [Sealing()];
    var r3 := [Overwriting("m50-class-id-val", e3)] + r4;
    var r2 := [Overwriting("reply-text", e2)] + r3;
    var r1 := [Overwriting("reply-code", e1)] + r2;
    assert CloseOps() == [Renaming("method-id", id), Renaming("method-properties", props)] + r1;
    FirstTwo(id, props, r1, base, tape, fuel);
    WithMethodIs(id, props);
    CloseExtra();
    var h1 := WithMethod(id, props);
    Extended(h1, base, id, props, "reply-code", e1, r2, tape, fuel);
    var h2 := h1["reply-code" := e1];
    Extended(h2, base, id, props, "reply-text", e2, r3, tape, fuel);
    var h3 := h2["reply-text" := e2];
    Extended(h3, base, id, props, "m50-class-id-val", e3, r4, tape, fuel);
    var h4 := h3["m50-class-id-val" := e3];
    Extended(h4, base, id, props, "m50-method-id-val", e3, [Sealing()], tape, fuel);
  }

  predicate CloseEntries(h: Table)
  {
    && "reply-code" in h && h["reply-code"] == Body([Hex([0x00, 0xC8])])
    && "reply-text" in h && h["reply-text"] == Body([Hex([0x03, 0x32, 0x30, 0x30])])
    && "m50-class-id-val" in h && h["m50-class-id-val"] == Body([Hex([0x00, 0x00])])
    && "m50-method-id-val" in h && h["m50-method-id-val"] == Body([Hex([0x00, 0x00])])
  }

  lemma CloseTableEntries()
    ensures CloseEntries(CloseTable())
  {
    hide Body, Hex, WithMethod;
  }

  const CLOSE_ARGUMENTS: seq<byte> := [0x00, 0xC8] + [0x03, 0x32, 0x30, 0x30] + [0x00, 0x00] + [0x00, 0x00]

  lemma CloseProperties(level: Level, h: Table)
    requires h.Keys <= OVERRIDDEN && CloseEntries(h)
    ensures Gives([h] + BaseChain(level), "m50-method-properties", CLOSE_ARGUMENTS, 2)
  {
    hide BaseChain, IsBase, Gives, GivesAll, Defines, OVERRIDDEN, Body;
    var base, c := BaseChain(level), [h] + BaseChain(level);
    BaseModels(level);
    FixedGives(h, base, "reply-code", Hex([0x00, 0xC8]), [0x00, 0xC8]);
    FixedGives(h, base, "reply-text", Hex([0x03, 0x32, 0x30, 0x30]), [0x03, 0x32, 0x30, 0x30]);
    FixedGives(h, base, "m50-class-id-val", Hex([0x00, 0x00]), [0x00, 0x00]);
    FixedGives(h, base, "m50-method-id-val", Hex([0x00, 0x00]), [0x00, 0x00]);
    PropertiesUntouched();
    M50MethodProperties(base);
    var p, q, r, s := Named("reply-code"), Named("reply-text"), Named("m50-class-id-val"), Named("m50-method-id-val");
    Behind(h, base, "m50-method-properties", [[p, q, r, s]]);
    GivesFour(c, p, q, r, s, [0x00, 0xC8], [0x03, 0x32, 0x30, 0x30], [0x00, 0x00], [0x00, 0x00], 1);
    RuleGives(c, "m50-method-properties", [p, q, r, s], CLOSE_ARGUMENTS, 1);
  }

  lemma ClosePacket(level: Level, tape: Tape, fuel: nat)
    requires fuel >= 4
    ensures Assemble(CloseOps(), 0, BaseChain(level), tape, fuel)
         == Ok(FrameOctets(METHOD, 0, [0, 10] + [0, 50] + CLOSE_ARGUMENTS), tape)
  {
    hide *;
    var base, h := BaseChain(level), CloseTable();
    var id, props := "m50-method-id", "m50-method-properties";
    CloseRuns(base, tape, fuel);
    TableKeys(h, id, props);
    CloseTableEntries();
    BaseModels(level);
    IdsUntouched();
    IdsValid();
    PropertiesValid();
    M50MethodId(base);
    SymbolGives(h, base, id, [0, 50]);
    CloseProperties(level, h);
    PacketOf(CloseOps(), h, level, id, props, [0, 50], CLOSE_ARGUMENTS, 2, tape, fuel);
  }

  /* --- Start-Ok --- */

  /** A field after its four-octet length. */
  function LengthFirst(d: seq<byte>): seq<byte> { BE(|d| % 0x1_0000_0000, 4) + d }

  function PlainMessageOctets(): seq<byte> { AuthMessage(ShiftAll("username"), ShiftAll("password")) }

  function CredentialTable(): Table
  {
    WithMethod("m11-method-id", "m11-method-properties")
      ["client-properties-payload" := Frozen([0x00, 0x56])]
      ["client-properties-length" := Frozen(BE(2 % 0x1_0000_0000, 4))]
      ["authcid" := Body([Quote("username")])]["passwd" := Body([Quote("password")])]
  }

  function StartOkTable(message: seq<byte>): Table
  {
    CredentialTable()["message" := Frozen(message)]["message-length" := Frozen(BE(|message| % 0x1_0000_0000, 4))]
  }

  lemma StartOkExtra()
    ensures Extra("client-properties-payload") && Extra("client-properties-length")
    ensures Extra("authcid") && Extra("passwd") && Extra("message") && Extra("message-length")
  {
  }

  /** A freeze of a fixed rule adds two frozen entries. */
  lemma FrozenExtended(h: Table, base: Chain, id: string, props: string, n: string, lengthRule: string, d: seq<byte>,
      depth: nat,
                       ops: seq<Op>, tape: Tape, fuel: nat)
    requires MethodTable(h, id, props) && Extra(n) && Extra(lengthRule)
    requires Gives([h] + base, n, d, depth) && depth <= fuel
    ensures var u := h[n := Frozen(d)][lengthRule := Frozen(BE(|d| % 0x1_0000_0000, 4))];
            && MethodTable(u, id, props)
            && RunOps([Freezing(n, lengthRule, 4)] + ops, 0, h, base, tape, fuel) == RunOps(ops, 0, u, base, tape, fuel)
  {
    hide RunOps, MethodTable, Gives;
    StillMethodTable(h, id, props, n, Frozen(d));
    StillMethodTable(h[n := Frozen(d)], id, props, lengthRule, Frozen(BE(|d| % 0x1_0000_0000, 4)));
    RunFreezing(n, lengthRule, d, depth, ops, h, base, tape, fuel);
  }

  lemma ClientPayloadGives(level: Level, h: Table)
    requires "client-properties-payload" !in h
    ensures Gives([h] + BaseChain(level), "client-properties-payload", [0x00, 0x56], 1)
  {
    hide *;
    BaseModels(level);
    ClientPropertiesPayload(BaseChain(level));
    SymbolGives(h, BaseChain(level), "client-properties-payload", [0x00, 0x56]);
  }

  lemma MessageGives(level: Level, h: Table)
    requires h.Keys <= OVERRIDDEN && "message" !in h
    requires "authcid" in h && h["authcid"] == Body([Quote("username")]) && Valid(Quote("username"))
    requires "passwd" in h && h["passwd"] == Body([Quote("password")]) && Valid(Quote("password"))
    ensures Gives([h] + BaseChain(level), "message", PlainMessageOctets(), 2)
  {
    hide BaseChain, IsBase, Gives, GivesAll, Defines, OVERRIDDEN, Body, ShiftAll, Valid;
    var base, c := BaseChain(level), [h] + BaseChain(level);
    BaseModels(level);
    var u, p := ShiftAll("username"), ShiftAll("password");
    FixedGives(h, base, "authcid", Quote("username"), u);
    FixedGives(h, base, "passwd", Quote("password"), p);
    StartOkUntouched();
    UTF8NUL(base);
    SymbolGives(h, base, "UTF8NUL", [0]);
    AmqpGrammar.Message(base);
    var ps := [Bracketed("authzid"), Named("UTF8NUL"), Named("authcid"), Named("UTF8NUL"), Named("passwd")];
    Behind(h, base, "message", [ps]);
    GivesFive(c, Bracketed("authzid"), Named("UTF8NUL"), Named("authcid"), Named("UTF8NUL"), Named("passwd"), [], [0],
        u, [0], p, 1);
    assert [] + [0] + u + [0] + p == PlainMessageOctets();
    RuleGives(c, "message", ps, PlainMessageOctets(), 1);
  }

  lemma CredentialEntries()
    ensures var h := CredentialTable();
            && "message" !in h && "authcid" in h && h["authcid"] == Body([Quote("username")])
            && "passwd" in h && h["passwd"] == Body([Quote("password")])
  {
    hide Body;
  }

  lemma QuotesValid()
    ensures Valid(Quote("username")) && Valid(Quote("password"))
  {
  }

  lemma StartOkRuns(level: Level, tape: Tape, fuel: nat)
    requires fuel >= 4
    ensures var h := StartOkTable(PlainMessageOctets());
            && RunOps(StartOkOps(), 0, map[], BaseChain(level), tape, fuel)
            == RunOps([Sealing()], 0, h, BaseChain(level), tape, fuel)
            && MethodTable(h, "m11-method-id", "m11-method-properties")
  {
    hide BaseChain, RunOps, WithMethod, Renaming, Sealing, Body, MethodTable, Extra, Gives, PlainMessageOctets, Valid;
    var base := BaseChain(level);
    var id, props := "m11-method-id", "m11-method-properties";
    var eu, ep := Body([Quote("username")]), Body([Quote("password")]);
    var r4 := [Freezing("message", "message-length", 4)] + [Sealing()];
    var r3 := [Overwriting("passwd", ep)] + r4;
    var r2 := [Overwriting("authcid", eu)] + r3;
    var r1 := [Freezing("client-properties-payload", "client-properties-length", 4)] + r2;
    assert StartOkOps() == [Renaming("method-id", id), Renaming("method-properties", props)] + r1;
    FirstTwo(id, props, r1, base, tape, fuel);
    WithMethodIs(id, props);
    StartOkExtra();
    var h1 := WithMethod(id, props);
    assert "client-properties-payload" !in h1;
    ClientPayloadGives(level, h1);
    FrozenExtended(h1, base, id, props, "client-properties-payload", "client-properties-length", [0x00, 0x56], 1, r2,
        tape, fuel);
    var h2 := h1["client-properties-payload" := Frozen([0x00, 0x56])]
                ["client-properties-length" := Frozen(BE(2 % 0x1_0000_0000, 4))];
    Extended(h2, base, id, props, "authcid", eu, r3, tape, fuel);
    Extended(h2["authcid" := eu], base, id, props, "passwd", ep, r4, tape, fuel);
    CredentialEntries();
    StartOkLast(CredentialTable(), level, tape, fuel);
  }

  lemma StartOkLast(h: Table, level: Level, tape: Tape, fuel: nat)
    requires fuel >= 4 && MethodTable(h, "m11-method-id", "m11-method-properties") && "message" !in h
    requires "authcid" in h && h["authcid"] == Body([Quote("username")])
    requires "passwd" in h && h["passwd"] == Body([Quote("password")])
    ensures var message := PlainMessageOctets();
            var u := h["message" := Frozen(message)]["message-length" := Frozen(BE(|message| % 0x1_0000_0000, 4))];
            && RunOps([Freezing("message", "message-length", 4)] + [Sealing()], 0, h, BaseChain(level), tape, fuel)
            == RunOps([Sealing()], 0, u, BaseChain(level), tape, fuel)
            && MethodTable(u, "m11-method-id", "m11-method-properties")
  {
    hide BaseChain, RunOps, Sealing, Body, MethodTable, Extra, Gives, PlainMessageOctets, Valid;
    QuotesValid();
    StartOkExtra();
    TableKeys(h, "m11-method-id", "m11-method-properties");
    MessageGives(level, h);
    FrozenExtended(h, BaseChain(level), "m11-method-id", "m11-method-properties", "message", "message-length",
                   PlainMessageOctets(), 2, [Sealing()], tape, fuel);
  }

  /** client-properties, mechanism PLAIN, response, locale en_US. */
  function StartOkArguments(message: seq<byte>): seq<byte>
  {
    LengthFirst([0x00, 0x56]) + ([5] + [0x50, 0x4C, 0x41, 0x49, 0x4E])
      + LengthFirst(message) + ([5] + [0x65, 0x6E, 0x5F, 0x55, 0x53])
  }

  predicate StartOkEntries(h: Table, message: seq<byte>)
  {
    && "client-properties-payload" in h && h["client-properties-payload"] == Frozen([0x00, 0x56])
    && "client-properties-length" in h && h["client-properties-length"] == Frozen(BE(2 % 0x1_0000_0000, 4))
    && "message" in h && h["message"] == Frozen(message)
    && "message-length" in h && h["message-length"] == Frozen(BE(|message| % 0x1_0000_0000, 4))
  }

  lemma StartOkTableEntries(message: seq<byte>)
    ensures StartOkEntries(StartOkTable(message), message)
  {
    hide Body, WithMethod;
  }

  lemma FrozenPair(h: Table, base: Chain, n: string, x: string, y: string, d: seq<byte>)
    requires n !in h && Defines(base, n, [[Named(x), Named(y)]])
    requires x in h && h[x] == Frozen(BE(|d| % 0x1_0000_0000, 4)) && y in h && h[y] == Frozen(d)
    ensures Gives([h] + base, n, LengthFirst(d), 2)
  {
    hide Gives, GivesAll, Defines, Lookup;
    var c := [h] + base;
    InFront(h, base, x);
    InFront(h, base, y);
    FrozenGives(c, x, BE(|d| % 0x1_0000_0000, 4));
    FrozenGives(c, y, d);
    Behind(h, base, n, [[Named(x), Named(y)]]);
    GivesTwo(c, Named(x), Named(y), BE(|d| % 0x1_0000_0000, 4), d, 1);
    RuleGives(c, n, [Named(x), Named(y)], LengthFirst(d), 1);
  }

  lemma SymbolPair(h: Table, base: Chain, n: string, x: seq<byte>, y: seq<byte>)
    requires n !in h && Defines(base, n, [[Dec(x), Hex(y)]])
    ensures Gives([h] + base, n, x + y, 2)
  {
    hide Gives, GivesAll, Defines;
    var c := [h] + base;
    Behind(h, base, n, [[Dec(x), Hex(y)]]);
    GivesTwo(c, Dec(x), Hex(y), x, y, 0);
    RuleGives(c, n, [Dec(x), Hex(y)], x + y, 0);
    GivesDeeper(c, n, x + y, 1, 2);
  }

  lemma StartOkProperties(level: Level, h: Table, message: seq<byte>)
    requires h.Keys <= OVERRIDDEN && StartOkEntries(h, message)
    ensures Gives([h] + BaseChain(level), "m11-method-properties", StartOkArguments(message), 3)
  {
    hide BaseChain, IsBase, Gives, GivesAll, Defines, OVERRIDDEN, LengthFirst;
    var base, c := BaseChain(level), [h] + BaseChain(level);
    BaseModels(level);
    StartOkUntouched();
    PropertiesUntouched();
    ClientProperties(base);
    FrozenPair(h, base, "client-properties", "client-properties-length", "client-properties-payload", [0x00, 0x56]);
    Mechanism(base);
    SymbolPair(h, base, "mechanism", [5], [0x50, 0x4C, 0x41, 0x49, 0x4E]);
    Response(base);
    FrozenPair(h, base, "response", "message-length", "message", message);
    Locale(base);
    SymbolPair(h, base, "locale", [5], [0x65, 0x6E, 0x5F, 0x55, 0x53]);
    M11MethodProperties(base);
    var p, q, r, s := Named("client-properties"), Named("mechanism"), Named("response"), Named("locale");
    Behind(h, base, "m11-method-properties", [[p, q, r, s]]);
    GivesFour(c, p, q, r, s, LengthFirst([0x00, 0x56]), [5] + [0x50, 0x4C, 0x41, 0x49, 0x4E], LengthFirst(message),
              [5] + [0x65, 0x6E, 0x5F, 0x55, 0x53], 2);
    RuleGives(c, "m11-method-properties", [p, q, r, s], StartOkArguments(message), 2);
  }

  lemma StartOkPacket(level: Level, tape: Tape, fuel: nat)
    requires fuel >= 5
    ensures Assemble(StartOkOps(), 0, BaseChain(level), tape, fuel)
         == Ok(FrameOctets(METHOD, 0, [0, 10] + [0, 11] + StartOkArguments(PlainMessageOctets())), tape)
  {
    hide *;
    var base, message := BaseChain(level), PlainMessageOctets();
    var h := StartOkTable(message);
    var id, props := "m11-method-id", "m11-method-properties";
    StartOkRuns(level, tape, fuel);
    TableKeys(h, id, props);
    StartOkTableEntries(message);
    BaseModels(level);
    IdsUntouched();
    IdsValid();
    PropertiesValid();
    M11MethodId(base);
    SymbolGives(h, base, id, [0, 11]);
    StartOkProperties(level, h, message);
    PacketOf(StartOkOps(), h, level, id, props, [0, 11], StartOkArguments(message), 3, tape, fuel);
  }

  /* --- Tune-Ok --- */

  function TuneOkTable(channelMax: int, frameMax: int): Table
  {
    WithMethod("m31-method-id", "m31-method-properties")
      ["frame-max" := Frozen(BE(frameMax % 0x1_0000_0000, 4))]["channel-max" := Frozen(BE(channelMax % 0x1_0000, 2))]
  }

  lemma TuneOkExtra() ensures Extra("frame-max") && Extra("channel-max") { }

  lemma TuneOkRuns(channelMax: int, frameMax: int, base: Chain, tape: Tape, fuel: nat)
    ensures var h := TuneOkTable(channelMax, frameMax);
            && RunOps(TuneOkOps(channelMax, frameMax), 0, map[], base, tape, fuel)
            == RunOps([Sealing()], 0, h, base, tape, fuel)
            && MethodTable(h, "m31-method-id", "m31-method-properties")
  {
    hide RunOps, WithMethod, Renaming, Sealing, Body, MethodTable, Extra;
    var id, props := "m31-method-id", "m31-method-properties";
    var ef, ec := Frozen(BE(frameMax % 0x1_0000_0000, 4)), Frozen(BE(channelMax % 0x1_0000, 2));
    var r2 := [Overwriting("channel-max", ec)] + [Sealing()];
    var r1 := [Overwriting("frame-max", ef)] + r2;
    assert TuneOkOps(channelMax, frameMax) == [Renaming("method-id", id), Renaming("method-properties", props)] + r1;
    FirstTwo(id, props, r1, base, tape, fuel);
    WithMethodIs(id, props);
    TuneOkExtra();
    var h := WithMethod(id, props);
    Extended(h, base, id, props, "frame-max", ef, r2, tape, fuel);
    Extended(h["frame-max" := ef], base, id, props, "channel-max", ec, [Sealing()], tape, fuel);
  }

  lemma TuneOkTableEntries(channelMax: int, frameMax: int)
    ensures var h := TuneOkTable(channelMax, frameMax);
            && "channel-max" in h && h["channel-max"] == Frozen(BE(channelMax % 0x1_0000, 2))
            && "frame-max" in h && h["frame-max"] == Frozen(BE(frameMax % 0x1_0000_0000, 4))
  {
    hide WithMethod;
  }

  lemma HeartbeatUntouched()
    ensures "heartbeat-time" !in OVERRIDDEN && "short-int" !in OVERRIDDEN && "OCTET" !in OVERRIDDEN
  {
  }

  /** The heartbeat delay is two rolled octets. */
  lemma HeartbeatRolls(level: Level, h: Table)
    requires h.Keys <= OVERRIDDEN
    ensures Rolls([h] + BaseChain(level), "heartbeat-time", [], 3)
  {
    hide BaseChain, IsBase, Defines, OVERRIDDEN, Rolls;
    var base, c := BaseChain(level), [h] + BaseChain(level);
    BaseModels(level);
    HeartbeatUntouched();
    HeartbeatTime(base);
    ShortInt(base);
    OCTET(base);
    Behind(h, base, "heartbeat-time", [[Named("short-int")]]);
    Behind(h, base, "short-int", [[Exactly(2, Named("OCTET"))]]);
    Behind(h, base, "OCTET", [[HexTo([0x00], [0xFF])]]);
    PairRolls(c, "short-int", "OCTET");
    AliasRolls(c, "heartbeat-time", "short-int", [], 2);
  }

  /** Tune-Ok's properties: the two frozen limits, then the rolled heartbeat. */
  lemma TuneOkProperties(level: Level, h: Table, channels: seq<byte>, frames: seq<byte>)
    requires h.Keys <= OVERRIDDEN
    requires "channel-max" in h && h["channel-max"] == Frozen(channels)
    requires "frame-max" in h && h["frame-max"] == Frozen(frames)
    ensures Rolls([h] + BaseChain(level), "m31-method-properties", channels + frames, 4)
  {
    hide BaseChain, IsBase, Defines, OVERRIDDEN, Rolls, RollsAll, Gives, Lookup;
    var base, c := BaseChain(level), [h] + BaseChain(level);
    BaseModels(level);
    PropertiesUntouched();
    M31MethodProperties(base);
    var p, q, r := Named("channel-max"), Named("frame-max"), Named("heartbeat-time");
    Behind(h, base, "m31-method-properties", [[p, q, r]]);
    InFront(h, base, "channel-max");
    InFront(h, base, "frame-max");
    FrozenGives(c, "channel-max", channels);
    FrozenGives(c, "frame-max", frames);
    GivesDeeper(c, "channel-max", channels, 1, 3);
    GivesDeeper(c, "frame-max", frames, 1, 3);
    HeartbeatRolls(level, h);
    RollsLast(c, "heartbeat-time", [], 3);
    RollsThree(c, p, q, r, channels, frames, [], 3);
    assert channels + frames + [] == channels + frames;
    RuleRolls(c, "m31-method-properties", [p, q, r], channels + frames, 3);
  }

  /** The class and method ids in front of properties that end in rolls. */
  lemma PayloadRolls(h: Table, level: Level, id: string, props: string, idOctets: seq<byte>, prefix: seq<byte>,
      depth: nat)
    requires MethodTable(h, id, props) && Valid(Named(id)) && Valid(Named(props)) && depth >= 1
    requires Gives([h] + BaseChain(level), id, idOctets, 1) && Rolls([h] + BaseChain(level), props, prefix, depth)
    ensures Rolls([h] + BaseChain(level), "method-payload", [0, 10] + idOctets + prefix, depth + 2)
  {
    hide BaseChain, IsBase, Gives, Rolls, RollsAll, Defines, Lookup, OVERRIDDEN, Body;
    var base, c := BaseChain(level), [h] + BaseChain(level);
    BaseModels(level);
    FramesUntouched();
    ClassId(base);
    SymbolGives(h, base, "class-id", [0, 10]);
    GivesDeeper(c, "class-id", [0, 10], 1, depth + 1);
    AliasGives(h, base, "method-id", id, idOctets, 1);
    GivesDeeper(c, "method-id", idOctets, 2, depth + 1);
    BodyDefines(h, base, "method-properties", [Named(props)]);
    AliasRolls(c, "method-properties", props, prefix, depth);
    RollsLast(c, "method-properties", prefix, depth + 1);
    MethodPayload(base);
    var ps := [Named("class-id"), Named("method-id"), Named("method-properties")];
    Behind(h, base, "method-payload", [ps]);
    RollsThree(c, ps[0], ps[1], ps[2], [0, 10], idOctets, prefix, depth + 1);
    RuleRolls(c, "method-payload", ps, [0, 10] + idOctets + prefix, depth + 1);
  }

  function TuneOkArguments(channelMax: int, frameMax: int, heartbeat: seq<byte>): seq<byte>
  {
    BE(channelMax % 0x1_0000, 2) + BE(frameMax % 0x1_0000_0000, 4) + heartbeat
  }

  /** The heartbeat delay two rolls announce. */
  function Heartbeat(x: nat, y: nat): seq<byte> { [x % 0xFF, y % 0xFF] }

  lemma TuneOkOctets(channelMax: int, frameMax: int, x: nat, y: nat)
    ensures [0, 10] + [0, 31] + (BE(channelMax % 0x1_0000, 2) + BE(frameMax % 0x1_0000_0000, 4)) + Heartbeat(x, y)
         == [0, 10] + [0, 31] + TuneOkArguments(channelMax, frameMax, Heartbeat(x, y))
  {
    hide BE;
  }

  lemma TuneOkPayload(channelMax: int, frameMax: int, level: Level, tape: Tape, fuel: nat)
    requires fuel >= 6
    ensures DecodeRule([TuneOkTable(channelMax, frameMax)] + BaseChain(level), "method-payload", tape, fuel)
         == if |tape| < 3 then Fail(OutOfNumbers)
            else Ok([0, 10] + [0, 31] + TuneOkArguments(channelMax, frameMax, Heartbeat(tape[1], tape[2])), tape[3..])
  {
    hide *;
    hide BE;
    var h, base := TuneOkTable(channelMax, frameMax), BaseChain(level);
    var channels, frames := BE(channelMax % 0x1_0000, 2), BE(frameMax % 0x1_0000_0000, 4);
    TuneOkRuns(channelMax, frameMax, base, tape, fuel);
    TableKeys(h, "m31-method-id", "m31-method-properties");
    TuneOkTableEntries(channelMax, frameMax);
    IdsUntouched();
    IdsValid();
    PropertiesValid();
    BaseModels(level);
    M31MethodId(base);
    SymbolGives(h, base, "m31-method-id", [0, 31]);
    TuneOkProperties(level, h, channels, frames);
    PayloadRolls(h, level, "m31-method-id", "m31-method-properties", [0, 31], channels + frames, 4);
    RollsAt([h] + base, "method-payload", [0, 10] + [0, 31] + (channels + frames), 6, tape, fuel);
    if |tape| >= 3 {
      HeartbeatIs(tape[1], tape[2]);
      TuneOkOctets(channelMax, frameMax, tape[1], tape[2]);
    }
  }

  lemma HeartbeatIs(x: nat, y: nat)
    ensures Heartbeat(x, y) == [x % 0xFF, y % 0xFF]
  {
  }

  /** Tune-Ok draws three numbers: it announces exactly the two limits it was given, and a heartbeat
      delay whose octets are the last two of them, each below FF. */
  lemma TuneOkPacket(channelMax: int, frameMax: int, level: Level, tape: Tape, fuel: nat)
    requires fuel >= 6
    ensures Assemble(TuneOkOps(channelMax, frameMax), 0, BaseChain(level), tape, fuel)
         == if |tape| < 3 then Fail(OutOfNumbers)
            else Ok(TuneOkFrame(channelMax, frameMax, tape[1], tape[2]), tape[3..])
  {
    hide BaseChain, DecodeRule, RunOps, TuneOkTable, MethodTable, FrameOctets, TuneOkArguments, TuneOkOps, OVERRIDDEN,
         Heartbeat;
    var h, base := TuneOkTable(channelMax, frameMax), BaseChain(level);
    TuneOkRuns(channelMax, frameMax, base, tape, fuel);
    TableKeys(h, "m31-method-id", "m31-method-properties");
    TouchesEnvelope(h);
    Sealed(h, level, tape, fuel);
    RunRest(Sealing(), [], h, base, tape, fuel);
    EmptyRuns(base, fuel);
    assert [Sealing()] + [] == [Sealing()];
    TuneOkPayload(channelMax, frameMax, level, tape, fuel);
  }

  function TuneOkFrame(channelMax: int, frameMax: int, x: nat, y: nat): seq<byte>
  {
    FrameOctets(METHOD, 0, [0, 10] + [0, 31] + TuneOkArguments(channelMax, frameMax, Heartbeat(x, y)))
  }

  lemma EmptyRuns(base: Chain, fuel: nat)
    ensures forall t: Table, tape: Tape :: RunOps([], 0, t, base, tape, fuel) == Done(t, tape)
  {
  }

  /* --- Reading the packets back --- */

  /** break_packet finds the builder's class, method and arguments, whatever follows the frame. */
  lemma MethodReadBack(id: byte, args: seq<byte>, tail: seq<byte>)
    requires |args| + 4 < 0x8000
    ensures BreakPacket(FrameOctets(METHOD, 0, [0, 10] + [0, id] + args) + tail)
         == Some(Packet(METHOD, 0, |args| + 4, [], Some(Method(10, id, args))))
  {
    hide BreakPacket, FrameOctets;
    var P := [0, 10] + [0, id] + args;
    ReadBack(P, tail);
    assert P[..2] == [0, 10] && P[2..4] == [0, id] && P[4..] == args;
    ShortValue(10);
    ShortValue(id);
  }

  lemma ShortValue(x: byte)
    ensures Value([0, x]) == x
  {
    assert [0, x][..1] == [0] && [0][..0] == [];
    assert Value([0]) == 0;
  }

  lemma LengthRead(n: nat)
    requires n < 0x1_0000_0000
    ensures Value(BE(n % 0x1_0000_0000, 4)) == n
  {
    hide Value, BE, Pow;
    ValueOfBE(n, 4);
    PowFour();
  }

  /** In Start-Ok both nested length fields are exact, and everything is where its reader looks. */
  lemma StartOkNested(message: seq<byte>)
    requires |message| < 0x1_0000_0000
    ensures var a, n := StartOkArguments(message), |message|;
            && |a| == n + 22
            && Value(a[..4]) == 2 && a[4..6] == [0x00, 0x56]
            && a[6..12] == [5, 0x50, 0x4C, 0x41, 0x49, 0x4E]
            && Value(a[12..16]) == n && a[16..16 + n] == message
            && a[16 + n..] == [5, 0x65, 0x6E, 0x5F, 0x55, 0x53]
  {
    hide Value, BE;
    LengthRead(2);
    LengthRead(|message|);
    StartOkLayout(message, BE(2 % 0x1_0000_0000, 4), BE(|message| % 0x1_0000_0000, 4));
  }

  lemma StartOkLayout(message: seq<byte>, two: seq<byte>, n: seq<byte>)
    requires |two| == 4 && |n| == 4
    ensures var a := two + [0x00, 0x56] + ([5] + [0x50, 0x4C, 0x41, 0x49, 0x4E]) + (n + message)
                   + ([5] + [0x65, 0x6E, 0x5F, 0x55, 0x53]);
            && |a| == |message| + 22 && a[..4] == two && a[4..6] == [0x00, 0x56]
            && a[6..12] == [5, 0x50, 0x4C, 0x41, 0x49, 0x4E]
            && a[12..16] == n && a[16..16 + |message|] == message
            && a[16 + |message|..] == [5, 0x65, 0x6E, 0x5F, 0x55, 0x53]
  {
  }

  /** The whole way round for Start-Ok: built, sent, broken, and its credentials split at NUL. */
  lemma StartOkReadBack(level: Level, tape: Tape, fuel: nat, tail: seq<byte>)
    requires fuel >= 5
    ensures var r := Assemble(StartOkOps(), 0, BaseChain(level), tape, fuel);
            var args := StartOkArguments(PlainMessageOctets());
            && r.Ok? && r.rest == tape
            && BreakPacket(r.octets + tail) == Some(Packet(METHOD, 0, 44, [], Some(Method(10, 11, args))))
            && Value(args[..4]) == 2 && Value(args[12..16]) == 18
            && AuthParts(args[16..34]) == Some(([], ShiftAll("username"), ShiftAll("password")))
  {
    hide BaseChain, Assemble, BreakPacket, FrameOctets, StartOkArguments, AuthParts, ShiftAll, StartOkOps, Value;
    var message := PlainMessageOctets();
    assert |message| == 18;
    StartOkPacket(level, tape, fuel);
    StartOkNested(message);
    MethodReadBack(11, StartOkArguments(message), tail);
    Credentials();
    MessageSplits(ShiftAll("username"), ShiftAll("password"));
  }

  lemma Credentials()
    ensures NulFree(ShiftAll("username")) && NulFree(ShiftAll("password"))
  {
  }

  lemma OpenReadBack(level: Level, tape: Tape, fuel: nat, tail: seq<byte>)
    requires fuel >= 4
    ensures var r := Assemble(OpenOps(), 0, BaseChain(level), tape, fuel);
            && r.Ok? && r.rest == tape
            && BreakPacket(r.octets + tail) == Some(Packet(METHOD, 0, 8, [], Some(Method(10, 40, [1, 0x2F, 0, 0]))))
  {
    hide BaseChain, Assemble, BreakPacket, FrameOctets, OpenOps;
    OpenPacket(level, tape, fuel);
    assert [0x01, 0x2F] + [0] + [0] == [1, 0x2F, 0, 0];
    MethodReadBack(40, [1, 0x2F, 0, 0], tail);
  }

  lemma CloseReadBack(level: Level, tape: Tape, fuel: nat, tail: seq<byte>)
    requires fuel >= 4
    ensures var r := Assemble(CloseOps(), 0, BaseChain(level), tape, fuel);
            && r.Ok? && r.rest == tape
            && BreakPacket(r.octets + tail)
            == Some(Packet(METHOD, 0, 14, [], Some(Method(10, 50, [0, 0xC8, 3, 0x32, 0x30, 0x30, 0, 0, 0, 0]))))
  {
    hide BaseChain, Assemble, BreakPacket, FrameOctets, CloseOps;
    ClosePacket(level, tape, fuel);
    assert CLOSE_ARGUMENTS == [0, 0xC8, 3, 0x32, 0x30, 0x30, 0, 0, 0, 0];
    MethodReadBack(50, CLOSE_ARGUMENTS, tail);
  }

  lemma CloseOkReadBack(level: Level, tape: Tape, fuel: nat, tail: seq<byte>)
    requires fuel >= 4
    ensures var r := Assemble(CloseOkOps(), 0, BaseChain(level), tape, fuel);
            && r.Ok? && r.rest == tape
            && BreakPacket(r.octets + tail) == Some(Packet(METHOD, 0, 4, [], Some(Method(10, 51, []))))
  {
    hide BaseChain, Assemble, BreakPacket, FrameOctets, CloseOkOps;
    CloseOkPacket(level, tape, fuel);
    MethodReadBack(51, [], tail);
  }

  /** A Tune-Ok frame with these limits, as the fields hold them, and some heartbeat delay. */
  predicate TuneOkSays(p: Option<Packet>, channelMax: int, frameMax: int, heartbeat: seq<byte>)
  {
    && p.Some? && p.value.methodPayload.Some?
    && p.value.(methodPayload := None) == Packet(METHOD, 0, 12, [], None)
    && var m := p.value.methodPayload.value;
       && m.classId == 10 && m.methodId == 31 && |m.arguments| == 8
       && Value(m.arguments[..2]) == channelMax % 0x1_0000
       && Value(m.arguments[2..6]) == frameMax % 0x1_0000_0000
       && m.arguments[6..] == heartbeat
  }

  /** Tune-Ok is read back with the limits it was given, whenever three numbers are left to draw. */
  lemma TuneOkReadBack(channelMax: int, frameMax: int, level: Level, tape: Tape, fuel: nat, tail: seq<byte>)
    requires fuel >= 6 && |tape| >= 3
    ensures var r := Assemble(TuneOkOps(channelMax, frameMax), 0, BaseChain(level), tape, fuel);
            && r.Ok? && r.rest == tape[3..]
            && TuneOkSays(BreakPacket(r.octets + tail), channelMax, frameMax, Heartbeat(tape[1], tape[2]))
  {
    hide BaseChain, Assemble, BreakPacket, FrameOctets, TuneOkOps, Value, BE;
    TuneOkPacket(channelMax, frameMax, level, tape, fuel);
    var x, y := BE(channelMax % 0x1_0000, 2), BE(frameMax % 0x1_0000_0000, 4);
    var args := TuneOkArguments(channelMax, frameMax, Heartbeat(tape[1], tape[2]));
    assert args[..2] == x && args[2..6] == y && args[6..] == Heartbeat(tape[1], tape[2]);
    LengthRead(frameMax % 0x1_0000_0000);
    LimitRead(channelMax % 0x1_0000);
    MethodReadBack(31, args, tail);
  }

  lemma LimitRead(n: nat)
    requires n < 0x1_0000
    ensures Value(BE(n, 2)) == n
  {
    hide Value, BE, Pow;
    ValueOfBE(n, 2);
    PowTwo();
  }

  /* --- The protocol header --- */

  lemma ProtocolDefines(n: string, alts: seq<seq<Piece>>)
    requires n in FRAMES && FRAMES[n] == alts
    ensures Defines([Load(PROTOCOL)], n, alts)
  {
    hide FRAMES, CONTENT, CORE, FIELDS, SCALARS;
    FramesTidy();
    TidyRuleValid(alts);
    MadeMeans(alts);
  }

  lemma HeaderListed()
    ensures "amqp" in FRAMES && FRAMES["amqp"] == [[Named("protocol-header")]]
    ensures "literal-AMQP" in FRAMES && FRAMES["literal-AMQP"] == [[Dec([65, 77, 81, 80])]]
    ensures "protocol-id" in FRAMES && FRAMES["protocol-id"] == [[Dec([0])]]
    ensures "protocol-version" in FRAMES && FRAMES["protocol-version"] == [[Dec([0, 9, 1])]]
    ensures "protocol-header" in FRAMES
         && FRAMES["protocol-header"] == [[Named("literal-AMQP"), Named("protocol-id"), Named("protocol-version")]]
  {
  }

  lemma FixedSymbol(n: string, octets: seq<byte>)
    requires octets != [] && n in FRAMES && FRAMES[n] == [[Dec(octets)]]
    ensures Gives([Load(PROTOCOL)], n, octets, 1)
  {
    hide Defines, Gives, GivesAll, FRAMES;
    ProtocolDefines(n, [[Dec(octets)]]);
    GivesOne([Load(PROTOCOL)], Dec(octets), octets, 0);
    RuleGives([Load(PROTOCOL)], n, [Dec(octets)], octets, 0);
  }

  /** amqp_header: "AMQP" 0 0 9 1, without drawing a number; break_packet knows it as a protocol
      header. */
  lemma HeaderPacket(tape: Tape, fuel: nat, tail: seq<byte>)
    requires fuel >= 3
    ensures DecodeRule([Load(PROTOCOL)], "amqp", tape, fuel) == Ok([65, 77, 81, 80, 0, 0, 9, 1], tape)
    ensures BreakPacket([65, 77, 81, 80, 0, 0, 9, 1] + tail)
         == Some(Packet(PROTOCOL_HEADER, 0, 0, [65, 77, 81, 80, 0, 0, 9, 1], None))
  {
    HeaderGives();
    HeaderBreaks(tail);
    hide PROTOCOL, Load;
  }

  lemma HeaderGives()
    ensures Gives([Load(PROTOCOL)], "amqp", [65, 77, 81, 80, 0, 0, 9, 1], 3)
  {
    hide Defines, Gives, GivesAll, FRAMES, PROTOCOL, Load, ValidRule;
    var c := [Load(PROTOCOL)];
    HeaderListed();
    FixedSymbol("literal-AMQP", [65, 77, 81, 80]);
    FixedSymbol("protocol-id", [0]);
    FixedSymbol("protocol-version", [0, 9, 1]);
    var ps := [Named("literal-AMQP"), Named("protocol-id"), Named("protocol-version")];
    ProtocolDefines("protocol-header", [ps]);
    GivesThree(c, Named("literal-AMQP"), Named("protocol-id"), Named("protocol-version"), [65, 77, 81, 80], [0], [0,
        9, 1], 1);
    var b := [65, 77, 81, 80] + [0] + [0, 9, 1];
    RuleGives(c, "protocol-header", ps, b, 1);
    ProtocolDefines("amqp", [[Named("protocol-header")]]);
    GivesOne(c, Named("protocol-header"), b, 2);
    RuleGives(c, "amqp", [Named("protocol-header")], b, 2);
    assert b == [65, 77, 81, 80, 0, 0, 9, 1];
  }

  lemma HeaderBreaks(tail: seq<byte>)
    ensures BreakPacket([65, 77, 81, 80, 0, 0, 9, 1] + tail)
         == Some(Packet(PROTOCOL_HEADER, 0, 0, [65, 77, 81, 80, 0, 0, 9, 1], None))
  {
    var packet := [65, 77, 81, 80, 0, 0, 9, 1] + tail;
    assert packet[..4] == AMQP && packet[..8] == [65, 77, 81, 80, 0, 0, 9, 1];
  }

  /* --- The raw grammar is another matter --- */

  lemma PropertyFlagsListed()
    ensures "property-flags" in CONTENT && CONTENT["property-flags"]
            == [[AtLeast(15, Named("BIT")), Bin([0])], [AtLeast(15, Named("BIT")), Bin([1]), Named("property-flags")]]
  {
  }

  lemma PropertyFlagsApart()
    ensures "property-flags" !in CORE && "property-flags" !in FIELDS && "property-flags" !in SCALARS &&
        "property-flags" !in FRAMES
  {
  }

  /** The protocol grammar itself has no stratification: "property-flags" mentions itself. */
  lemma ProtocolUnranked(names: Names, rank: string -> nat)
    requires names("property-flags")
    ensures !Ranked([Load(PROTOCOL)], names, rank)
  {
    hide FRAMES, CONTENT, CORE, FIELDS, SCALARS;
    PropertyFlagsListed();
    PropertyFlagsApart();
    var c := [Load(PROTOCOL)];
    var alts := [[AtLeast(15, Named("BIT")), Bin([0])], [AtLeast(15, Named("BIT")), Bin([1]), Named("property-flags")]];
    var e := MakeEntry(alts);
    assert Lookup(c, "property-flags") == Some(e);
    PropertyFlagsCycle(e, alts);
    SelfMentionUnranked(c, names, rank, "property-flags");
  }

  lemma PropertyFlagsCycle(e: Entry, alts: seq<seq<Piece>>)
    requires alts == [[AtLeast(15, Named("BIT")), Bin([0])],
                      [AtLeast(15, Named("BIT")), Bin([1]), Named("property-flags")]]
    requires e == MakeEntry(alts)
    ensures EntryMentions(e, "property-flags")
  {
    MadeMeans(alts);
    var es := ElementsOf(alts[1]);
    assert es[2] == Rule("property-flags");
    assert Mentions(es[2]) <= MentionsAll(es);
    assert "property-flags" in MentionsAll(Elements(e.alternatives[1]));
  }
}
