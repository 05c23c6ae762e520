/** The five Connection builders (fuzzer/Connection.c) as lists of overrides and freezes, and what
    holds of every packet they build: at every rule chaos level and on every tape. */
module Builders {
  import opened Octets
  import opened Abnf
  import opened AbnfPrint
  import opened Language
  import opened Decoder
  import opened Termination
  import opened Override
  import opened Strata
  import opened Assembly
  import opened AmqpRules
  import opened AmqpGrammar
  import opened AmqpBounds
  import opened AmqpMeaning
  import opened PlainText

  /** A STRING entry written in the grammar's notation. */
  function Body(ps: seq<Piece>): Entry { MakeEntry([ps]) }

  function Renaming(rule: string, target: string): Op { Overwriting(rule, Body([Named(target)])) }

  /** What every builder ends with. */
  function Sealing(): Op { Freezing("method-payload", "payload-size", 4) }

  function StartOkOps(): seq<Op>
  {
    [Renaming("method-id", "m11-method-id"), Renaming("method-properties", "m11-method-properties"),
     Freezing("client-properties-payload", "client-properties-length", 4),
     Overwriting("authcid", Body([Quote("username")])), Overwriting("passwd", Body([Quote("password")])),
     Freezing("message", "message-length", 4), Sealing()]
  }

  function TuneOkOps(channelMax: int, frameMax: int): seq<Op>
  {
    [Renaming("method-id", "m31-method-id"), Renaming("method-properties", "m31-method-properties"),
     Overwriting("frame-max", Frozen(BE(frameMax % 0x1_0000_0000, 4))),
     Overwriting("channel-max", Frozen(BE(channelMax % 0x1_0000, 2))), Sealing()]
  }

  function OpenOps(): seq<Op>
  {
    [Renaming("method-id", "m40-method-id"), Renaming("method-properties", "m40-method-properties"),
     Overwriting("virtual-host", Body([Hex([0x01, 0x2F])])), Sealing()]
  }

  function CloseOps(): seq<Op>
  {
    [Renaming("method-id", "m50-method-id"), Renaming("method-properties", "m50-method-properties"),
     Overwriting("reply-code", Body([Hex([0x00, 0xC8])])),
     Overwriting("reply-text", Body([Hex([0x03, 0x32, 0x30, 0x30])])),
     Overwriting("m50-class-id-val", Body([Hex([0x00, 0x00])])),
     Overwriting("m50-method-id-val", Body([Hex([0x00, 0x00])])), Sealing()]
  }

  function CloseOkOps(): seq<Op>
  {
    [Renaming("method-id", "m51-method-id"), Renaming("method-properties", "m51-method-properties"), Sealing()]
  }

  ghost function AmqpBasis(): Basis { Basis(NamesOf(BOUNDS), RankOf(BOUNDS), Meant()) }

  /* --- Names that overrides may use --- */

  /** A bounded rule name other than the two strings'. */
  predicate Overridable(rule: string)
  {
    rule in BOUNDS && ' ' !in rule && rule != "short-string" && rule != "long-string"
  }

  /** No grammar file defines a name of the fuzzer's own. */
  lemma Clean(n: string)
    requires |n| >= 3 && n[0] == 'f' && n[1] == 'u'
    ensures n !in CONNECTION && n !in PROTOCOL
  {
    FuzzerTag(TagOf(n));
    hide CONNECTION, PROTOCOL, Unlisted;
    UnlistedNowhere(n);
  }

  lemma FuzzerTag(t: Tag)
    requires t.1 == 'f' && t.2 == 'u'
    ensures Unlisted(t)
  {
  }

  lemma OrdinaryName(rule: string)
    requires rule != "short-string" && rule != "long-string"
    ensures !Special(ChaosName(rule)) && !Special(OrderName(rule))
  {
    PlainOfNew(rule);
    PlainOfNew("short-string");
    PlainOfNew("long-string");
    NamesApart("short-string");
    NamesApart("long-string");
    ApartOther(rule, "short-string");
    ApartOther(rule, "long-string");
  }

  lemma ApartOther(rule: string, other: string)
    requires other != "" && other[0] != 'f'
    ensures ChaosName(rule) != OrderName(other) && OrderName(rule) != ChaosName(other)
    ensures ChaosName(rule) != other && OrderName(rule) != other
  {
    assert ChaosName(rule)[7] == 'c' && OrderName(other)[7] == 'o' && ChaosName(rule)[0] == 'f';
    assert OrderName(rule)[7] == 'o' && ChaosName(other)[7] == 'c' && OrderName(rule)[0] == 'f';
  }

  lemma FreshNames(c: Chain, rule: string)
    requires IsBase(c) && Overridable(rule)
    ensures FirstTime(c, rule) && ChaosName(rule) !in BOUNDS && OrderName(rule) !in BOUNDS
  {
    hide BOUNDS, Special, CONNECTION, PROTOCOL;
    OrdinaryName(rule);
    Clean(ChaosName(rule));
    Clean(OrderName(rule));
    PlainOfNew(rule);
    NamesApart(rule);
    NamesPlain();
    assert ChaosName(rule) in BOUNDS ==> Plain(ChaosName(rule)) == ChaosName(rule);
    assert OrderName(rule) in BOUNDS ==> Plain(OrderName(rule)) == OrderName(rule);
  }

  /* --- An empty table in front changes nothing --- */

  lemma EmptyHead(base: Chain)
    ensures forall n :: Lookup([map[]] + base, n) == Lookup(base, n)
  {
    var c: Chain := [map[]] + base;
    assert c[1..] == base;
  }

  lemma GoodBehindEmpty(base: Chain, names: Names, rank: string -> nat, J: Meaning)
    requires Good(base, names, rank, J)
    ensures Good([map[]] + base, names, rank, J)
  {
    var c: Chain := [map[]] + base;
    EmptyHead(base);
    assert forall n, b :: InBody(c, J, n, b) == InBody(base, J, n, b);
  }

  /* --- Every operation of every builder fits --- */

  lemma MeantOf(n: string, b: seq<byte>)
    ensures Meant()(n, b) <==>
            && (Plain(n) in BOUNDS ==> BOUNDS[Plain(n)].lo <= |b| <= BOUNDS[Plain(n)].hi)
            && FrameSound(Plain(n), b) && TextSound(Plain(n), b)
  {
    hide BOUNDS, FrameSound, TextSound, Plain;
    var B := BOUNDS;
    assert Sized(B)(n, b) <==> (Plain(n) in B ==> B[Plain(n)].lo <= |b| <= B[Plain(n)].hi);
    assert Meant()(n, b) <==> Sized(BOUNDS)(n, b) && FrameSound(Plain(n), b) && TextSound(Plain(n), b);
  }

  lemma RuleFitsHere(rule: string)
    requires Overridable(rule)
    ensures RuleFits(rule, AmqpBasis())
  {
    hide BOUNDS, FrameSound, TextSound, Plain, Meant;
    PlainHere(rule);
    PlainOfNew(rule);
    forall b
      ensures Meant()(ChaosName(rule), b) == Meant()(rule, b)
      ensures Meant()(OrderName(rule), b) == Meant()(rule, b)
    {
      MeantOf(rule, b);
      MeantOf(ChaosName(rule), b);
      MeantOf(OrderName(rule), b);
    }
  }

  ghost predicate Unclaused(rule: string) { forall b :: FrameSound(rule, b) && TextSound(rule, b) }

  /** Names that no clause of Meant speaks of can be told by their length, four aside. */
  lemma UnclausedName(rule: string)
    requires |rule| >= 9 && rule !in ["frame-end", "method-frame", "method-payload", "frame-properties"]
    ensures Unclaused(rule)
  {
    var four := ["frame-end", "method-frame", "method-payload", "frame-properties"];
    assert four[0] in four && four[1] in four && four[2] in four && four[3] in four;
  }

  lemma FrozenFitsHere(rule: string, octets: seq<byte>)
    requires Overridable(rule) && BOUNDS[rule].lo <= |octets| <= BOUNDS[rule].hi && Unclaused(rule)
    ensures EntryFits(rule, Frozen(octets), AmqpBasis())
  {
    hide BOUNDS, FrameSound, TextSound, Plain, Meant;
    MeantIs(rule, octets);
  }

  lemma LengthFits(lengthRule: string, n: nat)
    requires Overridable(lengthRule) && BOUNDS[lengthRule].lo <= 4 <= BOUNDS[lengthRule].hi && Unclaused(lengthRule)
    ensures Meant()(lengthRule, LengthOctets(n, 4))
  {
    hide BOUNDS, FrameSound, TextSound, Plain, Meant;
    MeantIs(lengthRule, LengthOctets(n, 4));
  }

  lemma FreezingFits(rule: string, lengthRule: string)
    requires Overridable(rule) && Overridable(lengthRule)
    requires BOUNDS[lengthRule].lo <= 4 <= BOUNDS[lengthRule].hi && Unclaused(lengthRule)
    ensures OpFits(Freezing(rule, lengthRule, 4), AmqpBasis())
  {
    hide BOUNDS, Meant, RuleFits, Overridable, Unclaused, LengthOctets;
    RuleFitsHere(rule);
    RuleFitsHere(lengthRule);
    forall n: nat ensures AmqpBasis().J(lengthRule, LengthOctets(n, 4)) { LengthFits(lengthRule, n); }
  }

  lemma BodyMeans(ps: seq<Piece>)
    requires ValidAll(ps)
    ensures Body(ps) == Text(AlternativeText(ps)) && Elements(AlternativeText(ps)) == ElementsOf(ps)
  {
    AlternativeReads(ps);
  }

  /** A one-alternative body of lower rank and matching length, whose octets the clauses allow. */
  lemma BodyFits(rule: string, ps: seq<Piece>)
    requires Overridable(rule) && ValidAll(ps) && FitsAlternative(BOUNDS, BOUNDS[rule], ElementsOf(ps))
    requires forall b | InElements(Meant(), ElementsOf(ps), b) :: FrameSound(rule, b) && TextSound(rule, b)
    ensures EntryFits(rule, Body(ps), AmqpBasis())
  {
    hide BOUNDS, Meant, FrameSound, TextSound, FitsAlternative, Elements, Overridable, InElements, ValidAll,
        AlternativeText;
    InBounds(rule);
    BodyMeans(ps);
    var e := Body(ps);
    FitSane(BOUNDS, BOUNDS[rule], e);
    forall m | EntryMentions(e, m) ensures m in BOUNDS && BOUNDS[m].rank < BOUNDS[rule].rank {
      FitMentions(BOUNDS, BOUNDS[rule], e, m);
    }
    forall b | InEntry(Meant(), e, b) ensures Meant()(rule, b) {
      EntryMonotoneAll(Meant(), Sized(BOUNDS), e, b) by { SizedWhenMeant(); }
      NamesPlain();
      FitSized(BOUNDS, BOUNDS[rule], e, b);
      MeantIs(rule, b);
    }
  }

  lemma InBounds(rule: string)
    requires Overridable(rule)
    ensures rule in BOUNDS
  {
  }

  lemma SizedWhenMeant()
    ensures Included(Meant(), Sized(BOUNDS))
  {
    hide BOUNDS, FrameSound, TextSound, Plain;
  }

  /** A rule renamed to one of lower rank whose bounds it allows. */
  lemma RenamingFits(rule: string, target: string)
    requires Overridable(rule) && Unclaused(rule) && target in BOUNDS && Valid(Named(target))
    requires BOUNDS[target].rank < BOUNDS[rule].rank
    requires BOUNDS[rule].lo <= BOUNDS[target].lo && BOUNDS[target].hi <= BOUNDS[rule].hi
    ensures OpFits(Renaming(rule, target), AmqpBasis())
  {
    hide BOUNDS, Meant, FrameSound, TextSound, Overridable, RuleFits, EntryFits, InElements;
    InBounds(rule);
    RuleFitsHere(rule);
    One(BOUNDS, Named(target), BOUNDS[rule].rank);
    BodyFits(rule, [Named(target)]);
  }

  /** A rule fixed to octets of a length its bounds allow. */
  lemma SymbolBodyFits(rule: string, p: Piece)
    requires Overridable(rule) && Unclaused(rule) && p.Symbol? && Valid(p)
    requires BOUNDS[rule].lo <= |p.octets| <= BOUNDS[rule].hi
    ensures OpFits(Overwriting(rule, Body([p])), AmqpBasis())
  {
    hide BOUNDS, Meant, FrameSound, TextSound, Overridable, RuleFits, EntryFits, InElements;
    InBounds(rule);
    RuleFitsHere(rule);
    One(BOUNDS, p, BOUNDS[rule].rank);
    BodyFits(rule, [p]);
  }

  lemma FrozenOpFits(rule: string, octets: seq<byte>)
    requires Overridable(rule) && BOUNDS[rule].lo <= |octets| <= BOUNDS[rule].hi && Unclaused(rule)
    ensures OpFits(Overwriting(rule, Frozen(octets)), AmqpBasis())
  {
    hide BOUNDS, Meant, Unclaused, Overridable, RuleFits, EntryFits;
    RuleFitsHere(rule);
    FrozenFitsHere(rule, octets);
  }

  predicate LowerCase(s: string) { forall i | 0 <= i < |s| :: 'a' <= s[i] <= 'z' }

  lemma {:induction false} AsciiText(b: seq<byte>)
    requires forall i | 0 <= i < |b| :: 1 <= b[i] <= 0x7F
    ensures Utf8(b) && NulFree(b)
  {
    if b != [] {
      AsciiText(b[1..]);
      assert Utf8Char(b[..1]);
      Utf8Cons(b[..1], b[1..]);
      assert b == b[..1] + b[1..];
    }
  }

  lemma LowerCaseCredential(s: string)
    requires LowerCase(s) && 1 <= |s| <= 64
    ensures Credential(ShiftAll(s))
  {
    AsciiText(ShiftAll(s));
  }

  lemma CredentialFits(rule: string, s: string)
    requires Overridable(rule) && (rule == "authcid" || rule == "passwd")
    requires LowerCase(s) && BOUNDS[rule].lo <= |s| <= BOUNDS[rule].hi && 1 <= |s| <= 64 && Valid(Quote(s))
    ensures OpFits(Overwriting(rule, Body([Quote(s)])), AmqpBasis())
  {
    hide BOUNDS, Meant, Overridable, RuleFits, EntryFits, InElements, Credential, PlainMessage;
    InBounds(rule);
    RuleFitsHere(rule);
    var p := Quote(s);
    One(BOUNDS, p, BOUNDS[rule].rank);
    forall b | InElements(Meant(), ElementsOf([p]), b) ensures FrameSound(rule, b) && TextSound(rule, b) {
      Alone(Meant(), p, b);
      LowerCaseCredential(s);
    }
    BodyFits(rule, [p]);
  }

  /* --- The rules the builders override --- */

  lemma NameOverridable(rule: string)
    requires rule in BOUNDS && Name(rule) && rule[0] != 's' && rule[0] != 'l'
    ensures Overridable(rule)
  {
    hide BOUNDS;
  }

  lemma MethodOpen()
    ensures Overridable("method-id") && Unclaused("method-id")
    ensures Overridable("method-properties") && Unclaused("method-properties")
    ensures Overridable("payload-size") && Unclaused("payload-size")
    ensures Overridable("method-payload")
  {
    hide BOUNDS, FrameSound, TextSound, Name, Overridable, Unclaused;
    Upto10At();
    Upto13At();
    Upto17At();
    CommonWords();
    FramesWords'();
    NameOverridable("method-id");
    NameOverridable("method-properties");
    NameOverridable("payload-size");
    NameOverridable("method-payload");
    UnclausedName("method-id");
    UnclausedName("method-properties");
    UnclausedName("payload-size");
  }

  lemma StartOkOpen()
    ensures Overridable("client-properties-payload") && Unclaused("client-properties-payload")
    ensures Overridable("client-properties-length") && Unclaused("client-properties-length")
    ensures Overridable("message-length") && Unclaused("message-length")
    ensures Overridable("authcid")
    ensures Overridable("passwd")
    ensures Overridable("message")
  {
    hide BOUNDS, FrameSound, TextSound, Name, Overridable, Unclaused;
    Upto6At();
    Upto8At();
    Upto17At();
    LongerAt();
    StartOkWords'();
    StartOkWords'''();
    PlainWords();
    NameOverridable("client-properties-payload");
    NameOverridable("client-properties-length");
    NameOverridable("message-length");
    NameOverridable("authcid");
    NameOverridable("passwd");
    NameOverridable("message");
    UnclausedName("client-properties-payload");
    UnclausedName("client-properties-length");
    UnclausedName("message-length");
  }

  lemma TuneOkOpen()
    ensures Overridable("frame-max") && Unclaused("frame-max")
    ensures Overridable("channel-max") && Unclaused("channel-max")
  {
    hide BOUNDS, FrameSound, TextSound, Name, Overridable, Unclaused;
    Upto10At();
    Upto13At();
    TuneOkWords();
    NameOverridable("frame-max");
    NameOverridable("channel-max");
    UnclausedName("frame-max");
    UnclausedName("channel-max");
  }

  lemma HostOpen()
    ensures Overridable("virtual-host") && Unclaused("virtual-host")
  {
    hide BOUNDS, FrameSound, TextSound, Name, Overridable, Unclaused;
    Upto13At();
    OpenCloseWords''();
    NameOverridable("virtual-host");
    UnclausedName("virtual-host");
  }

  lemma CloseOpen()
    ensures Overridable("reply-code") && Unclaused("reply-code")
    ensures Overridable("reply-text") && Unclaused("reply-text")
    ensures Overridable("m50-class-id-val") && Unclaused("m50-class-id-val")
    ensures Overridable("m50-method-id-val") && Unclaused("m50-method-id-val")
  {
    hide BOUNDS, FrameSound, TextSound, Name, Overridable, Unclaused;
    Upto10At();
    Upto17At();
    OpenCloseWords'();
    OpenCloseWords''();
    NameOverridable("reply-code");
    NameOverridable("reply-text");
    NameOverridable("m50-class-id-val");
    NameOverridable("m50-method-id-val");
    UnclausedName("reply-code");
    UnclausedName("reply-text");
    UnclausedName("m50-class-id-val");
    UnclausedName("m50-method-id-val");
  }

  /** What the theorem below asks of a builder's operations. */
  ghost predicate FitOps(ops: seq<Op>)
  {
    && (forall i | 0 <= i < |ops| :: OpFits(ops[i], AmqpBasis()))
    && Distinct(RulesOfAll(ops))
    && forall i | 0 <= i < |RulesOfAll(ops)| :: Overridable(RulesOfAll(ops)[i])
  }

  /** The rules from the k-th operation on. */
  lemma RulesFrom(ops: seq<Op>, k: nat)
    requires k < |ops|
    ensures RulesOfAll(ops[k..]) == RulesOf(ops[k]) + RulesOfAll(ops[k + 1..])
  {
    assert ops[k..][1..] == ops[k + 1..];
  }

  lemma NoRules()
    ensures RulesOfAll([]) == []
  {
  }

  lemma StartOkRules()
    ensures RulesOfAll(StartOkOps()) == ["method-id", "method-properties", "client-properties-payload",
        "client-properties-length", "authcid", "passwd", "message", "message-length", "method-payload", "payload-size"]
  {
    hide Body, RulesOfAll;
    var ops := StartOkOps();
    RulesFrom(ops, 6);
    RulesFrom(ops, 5);
    RulesFrom(ops, 4);
    RulesFrom(ops, 3);
    NoRules();
    assert ops[7..] == [];
    assert RulesOfAll(ops[3..])
        == ["authcid", "passwd", "message", "message-length", "method-payload", "payload-size"];
    RulesFrom(ops, 2);
    RulesFrom(ops, 1);
    RulesFrom(ops, 0);
    assert ops[0..] == ops;
  }

  lemma StartOkFits()
    ensures FitOps(StartOkOps())
  {
    hide BOUNDS, Overridable, Unclaused, OpFits, RulesOfAll, FrameSound, TextSound, Body;
    StartOkRules();
    MethodOpen();
    StartOkOpen();
    LongerAt();
    Upto10At();
    Upto13At();
    Upto17At();
    Upto6At();
    Upto8At();
    RenamingFits("method-id", "m11-method-id");
    RenamingFits("method-properties", "m11-method-properties");
    FreezingFits("client-properties-payload", "client-properties-length");
    CredentialFits("authcid", "username");
    CredentialFits("passwd", "password");
    FreezingFits("message", "message-length");
    FreezingFits("method-payload", "payload-size");
  }

  lemma TuneOkRules(channelMax: int, frameMax: int)
    ensures RulesOfAll(TuneOkOps(channelMax, frameMax)) == ["method-id", "method-properties", "frame-max",
        "channel-max", "method-payload", "payload-size"]
  {
    hide Body, RulesOfAll;
    var ops := TuneOkOps(channelMax, frameMax);
    RulesFrom(ops, 4);
    RulesFrom(ops, 3);
    RulesFrom(ops, 2);
    RulesFrom(ops, 1);
    RulesFrom(ops, 0);
    NoRules();
    assert ops[5..] == [] && ops[0..] == ops;
  }

  lemma TuneOkFits(channelMax: int, frameMax: int)
    ensures FitOps(TuneOkOps(channelMax, frameMax))
  {
    hide BOUNDS, Overridable, Unclaused, OpFits, RulesOfAll, FrameSound, TextSound, Body;
    TuneOkRules(channelMax, frameMax);
    MethodOpen();
    TuneOkOpen();
    LongerAt();
    Upto10At();
    Upto13At();
    Upto17At();
    RenamingFits("method-id", "m31-method-id");
    RenamingFits("method-properties", "m31-method-properties");
    FrozenOpFits("frame-max", BE(frameMax % 0x1_0000_0000, 4));
    FrozenOpFits("channel-max", BE(channelMax % 0x1_0000, 2));
    FreezingFits("method-payload", "payload-size");
  }

  lemma OpenRules()
    ensures RulesOfAll(OpenOps()) == ["method-id", "method-properties", "virtual-host", "method-payload",
        "payload-size"]
  {
    hide Body, RulesOfAll;
    var ops := OpenOps();
    RulesFrom(ops, 3);
    RulesFrom(ops, 2);
    RulesFrom(ops, 1);
    RulesFrom(ops, 0);
    NoRules();
    assert ops[4..] == [] && ops[0..] == ops;
  }

  lemma OpenFits()
    ensures FitOps(OpenOps())
  {
    hide BOUNDS, Overridable, Unclaused, OpFits, RulesOfAll, FrameSound, TextSound, Body;
    OpenRules();
    MethodOpen();
    HostOpen();
    LongerAt();
    Upto10At();
    Upto13At();
    Upto17At();
    RenamingFits("method-id", "m40-method-id");
    RenamingFits("method-properties", "m40-method-properties");
    SymbolBodyFits("virtual-host", Hex([0x01, 0x2F]));
    FreezingFits("method-payload", "payload-size");
  }

  lemma CloseRules()
    ensures RulesOfAll(CloseOps()) == ["method-id", "method-properties", "reply-code", "reply-text",
        "m50-class-id-val", "m50-method-id-val", "method-payload", "payload-size"]
  {
    hide Body, RulesOfAll;
    var ops := CloseOps();
    RulesFrom(ops, 6);
    RulesFrom(ops, 5);
    RulesFrom(ops, 4);
    RulesFrom(ops, 3);
    RulesFrom(ops, 2);
    RulesFrom(ops, 1);
    RulesFrom(ops, 0);
    NoRules();
    assert ops[7..] == [] && ops[0..] == ops;
  }

  lemma CloseFits()
    ensures FitOps(CloseOps())
  {
    hide BOUNDS, Overridable, Unclaused, OpFits, RulesOfAll, FrameSound, TextSound, Body;
    CloseRules();
    MethodOpen();
    CloseOpen();
    LongerAt();
    Upto10At();
    Upto13At();
    Upto17At();
    RenamingFits("method-id", "m50-method-id");
    RenamingFits("method-properties", "m50-method-properties");
    SymbolBodyFits("reply-code", Hex([0x00, 0xC8]));
    SymbolBodyFits("reply-text", Hex([0x03, 0x32, 0x30, 0x30]));
    SymbolBodyFits("m50-class-id-val", Hex([0x00, 0x00]));
    SymbolBodyFits("m50-method-id-val", Hex([0x00, 0x00]));
    FreezingFits("method-payload", "payload-size");
  }

  lemma CloseOkRules()
    ensures RulesOfAll(CloseOkOps()) == ["method-id", "method-properties", "method-payload", "payload-size"]
  {
    hide Body, RulesOfAll;
    var ops := CloseOkOps();
    RulesFrom(ops, 2);
    RulesFrom(ops, 1);
    RulesFrom(ops, 0);
    NoRules();
    assert ops[3..] == [] && ops[0..] == ops;
  }

  lemma CloseOkFits()
    ensures FitOps(CloseOkOps())
  {
    hide BOUNDS, Overridable, Unclaused, OpFits, RulesOfAll, FrameSound, TextSound, Body;
    CloseOkRules();
    MethodOpen();
    LongerAt();
    Upto10At();
    Upto13At();
    Upto17At();
    RenamingFits("method-id", "m51-method-id");
    RenamingFits("method-properties", "m51-method-properties");
    FreezingFits("method-payload", "payload-size");
  }


  /* --- Every packet, at every chaos level --- */

  function FirstLedger(): Ledger { Ledger(NamesOf(BOUNDS), RankOf(BOUNDS), 0) }

  lemma FreeAtFirst(level: Level, rule: string)
    requires Overridable(rule)
    ensures Plain(rule) == rule && Free([map[]] + BaseChain(level), FirstLedger(), rule)
  {
    hide BOUNDS, BaseChain, IsBase, Plain, Overridable;
    InBounds(rule);
    PlainHere(rule);
    BaseModels(level);
    FreshNames(BaseChain(level), rule);
    EmptyHead(BaseChain(level));
  }

  /** The base environment behind an empty table is where every builder starts. */
  lemma Ready(ops: seq<Op>, level: Level)
    requires FitOps(ops)
    ensures Holds([map[]] + BaseChain(level), FirstLedger(), AmqpBasis(), RulesOfAll(ops))
  {
    hide BOUNDS, BaseChain, OpFits, RulesOfAll, Overridable, Free, Plain, Good, Meant;
    BaseGood(level);
    GoodBehindEmpty(BaseChain(level), NamesOf(BOUNDS), RankOf(BOUNDS), Meant());
    var rules := RulesOfAll(ops);
    forall i | 0 <= i < |rules|
      ensures Plain(rules[i]) == rules[i] && Free([map[]] + BaseChain(level), FirstLedger(), rules[i])
    {
      FreeAtFirst(level, rules[i]);
    }
  }

  /** Stack frames that suffice for a rule after these operations. */
  function Stack(ops: seq<Op>): nat { TOP + 1 + |RulesOfAll(ops)| }

  /** A decoding within Meant, or one on a tape of fewer than `need` numbers. */
  ghost predicate Well(r: Outcome, rule: string, tape: Tape, need: nat)
  {
    match r
    case Ok(octets, _) => Meant()(rule, octets)
    case Fail(why) => why == OutOfNumbers && |tape| < need
  }

  /** The most numbers a rule can draw once these operations are through. */
  function DrawsAfter(ops: seq<Op>, level: Level, rule: string, fuel: nat): nat
  {
    DrawsRule([Settled(ops, level, map[], BaseChain(level))] + BaseChain(level), rule, fuel)
  }

  /** A run that gets through unless its tape is shorter than the budget, and decodes `rule` well. */
  ghost predicate WellRun(ops: seq<Op>, level: Level, tape: Tape, rule: string, tape': Tape, fuel: nat)
  {
    match RunOps(ops, level, map[], BaseChain(level), tape, fuel)
    case Stuck(why) => why == OutOfNumbers && |tape| < Budget(ops, level, map[], BaseChain(level), fuel)
    case Done(head, rest) =>
      && |tape| <= |rest| + Budget(ops, level, map[], BaseChain(level), fuel)
      && Well(DecodeRule([head] + BaseChain(level), rule, tape', fuel), rule, tape', DrawsAfter(ops, level, rule, fuel))
  }

  /** After any fitting operations, any bounded rule decodes into Meant, on every tape that holds
      the numbers it can draw - a bound that no tape can change. */
  lemma DecodesMeant(ops: seq<Op>, level: Level, tape: Tape, rule: string, tape': Tape, fuel: nat)
    requires FitOps(ops) && rule in BOUNDS && Stack(ops) <= fuel
    ensures WellRun(ops, level, tape, rule, tape', fuel)
  {
    hide BOUNDS, BaseChain, OpFits, RulesOfAll, Overridable, Holds, Distinct, Meant, RunOps, DecodeRule, AlikeTables,
        Alike, DrawsRule;
    Ready(ops, level);
    assert forall n | AmqpBasis().names(n) :: AmqpBasis().rank(n) <= TOP;
    var base, s := BaseChain(level), AmqpBasis();
    var L := OpsHold(ops, level, map[], base, tape, fuel, FirstLedger(), s);
    var r := RunOps(ops, level, map[], base, tape, fuel);
    if r.Done? {
      DecodedGood([r.head] + base, L, s, [], rule, tape', fuel);
      AlikeChains(r.head, Settled(ops, level, map[], base), base);
      DrawsRuleAlike([r.head] + base, [Settled(ops, level, map[], base)] + base, rule, fuel);
    }
  }

  /** Every packet any of the builders returns is 01 00 00, four octets, a payload of class 10 and
      4 to 156 octets, and CE; and a packet is returned on every tape that holds the numbers the
      rules can draw. */
  lemma EveryPacket(ops: seq<Op>, level: Level, tape: Tape, fuel: nat)
    requires FitOps(ops) && Stack(ops) <= fuel
    ensures FrameOrShort(Assemble(ops, level, BaseChain(level), tape, fuel), tape,
                         Draws(ops, level, BaseChain(level), fuel))
  {
    hide BOUNDS, BaseChain, FitOps, Stack, RunOps, DecodeRule, Meant, FrameShape, DrawsRule, Budget, Settled;
    Upto6At();
    FramesMeant();
    var p := RunOps(ops, level, map[], BaseChain(level), tape, fuel);
    DecodesMeant(ops, level, tape, "method", if p.Done? then p.rest else tape, fuel);
  }

  ghost predicate FrameOrShort(r: Outcome, tape: Tape, need: nat)
  {
    match r
    case Ok(octets, _) => FrameShape(octets)
    case Fail(why) => why == OutOfNumbers && |tape| < need
  }

  lemma {:induction false} RulesAppend(a: seq<Op>, b: seq<Op>)
    ensures RulesOfAll(a + b) == RulesOfAll(a) + RulesOfAll(b)
  {
    if a == [] {
      assert a + b == b;
    } else {
      assert (a + b)[1..] == a[1..] + b && (a + b)[0] == a[0];
      RulesAppend(a[1..], b);
    }
  }

  lemma PrefixRules(all: seq<string>, some: seq<string>)
    requires |some| <= |all| && some == all[..|some|] && Distinct(all)
    requires forall i | 0 <= i < |all| :: Overridable(all[i])
    ensures Distinct(some) && forall i | 0 <= i < |some| :: Overridable(some[i])
  {
    hide Overridable;
  }

  /** A builder stopped half way fits too. */
  lemma FitPrefix(ops: seq<Op>, k: nat)
    requires FitOps(ops) && k <= |ops|
    ensures FitOps(ops[..k]) && Stack(ops[..k]) <= Stack(ops)
  {
    hide OpFits, Overridable, RulesOfAll, Distinct, AmqpBasis;
    assert ops == ops[..k] + ops[k..];
    RulesAppend(ops[..k], ops[k..]);
    PrefixRules(RulesOfAll(ops), RulesOfAll(ops[..k]));
  }

  /** Wherever Start-Ok decodes its PLAIN message - after any number of its operations, at every
      level, on every tape that holds enough numbers - the message is two well-formed credentials,
      each behind a NUL, and splitting at NUL recovers them. */
  lemma EveryMessage(level: Level, k: nat, tape: Tape, tape': Tape, fuel: nat)
    requires k <= |StartOkOps()| && Stack(StartOkOps()) <= fuel
    ensures MessageOrShort(StartOkOps()[..k], level, tape, tape', fuel)
  {
    hide BOUNDS, BaseChain, FitOps, Stack, RunOps, DecodeRule, Meant, StartOkOps, PlainMessage, AuthParts, Budget,
        DrawsAfter;
    StartOkFits();
    FitPrefix(StartOkOps(), k);
    Upto8At();
    TextsMeant();
    var p := RunOps(StartOkOps()[..k], level, map[], BaseChain(level), tape, fuel);
    DecodesMeant(StartOkOps()[..k], level, tape, "message", tape', fuel);
    if p.Done? {
      var r := DecodeRule([p.head] + BaseChain(level), "message", tape', fuel);
      if r.Ok? { PlainMessageSplits(r.octets); }
    }
  }

  ghost predicate MessageOrShort(ops: seq<Op>, level: Level, tape: Tape, tape': Tape, fuel: nat)
  {
    match RunOps(ops, level, map[], BaseChain(level), tape, fuel)
    case Stuck(why) => why == OutOfNumbers && |tape| < Budget(ops, level, map[], BaseChain(level), fuel)
    case Done(head, rest) =>
      match DecodeRule([head] + BaseChain(level), "message", tape', fuel)
      case Fail(why) => why == OutOfNumbers && |tape'| < DrawsAfter(ops, level, "message", fuel)
      case Ok(octets, _) => PlainMessage(octets) && AuthParts(octets).Some?
  }

  /* --- All five --- */

  datatype Builder = ForStartOk | ForTuneOk(channelMax: int, frameMax: int) | ForOpen | ForClose | ForCloseOk

  function OpsOf(b: Builder): seq<Op>
  {
    match b
    case ForStartOk => StartOkOps()
    case ForTuneOk(channelMax, frameMax) => TuneOkOps(channelMax, frameMax)
    case ForOpen => OpenOps()
    case ForClose => CloseOps()
    case ForCloseOk => CloseOkOps()
  }

  /** Start-Ok has the most rules to override, ten. */
  lemma OpsOfFit(b: Builder)
    ensures FitOps(OpsOf(b)) && Stack(OpsOf(b)) <= TOP + 11
  {
    hide FitOps, RulesOfAll, StartOkOps, TuneOkOps, OpenOps, CloseOps, CloseOkOps;
    match b
    case ForStartOk => StartOkFits(); StartOkRules();
    case ForTuneOk(channelMax, frameMax) => TuneOkFits(channelMax, frameMax); TuneOkRules(channelMax, frameMax);
    case ForOpen => OpenFits(); OpenRules();
    case ForClose => CloseFits(); CloseRules();
    case ForCloseOk => CloseOkFits(); CloseOkRules();
  }

  /** With 21 stack frames every builder, at every level and on every tape, either returns a frame
      of the right shape or asks for more numbers than the tape holds, and the latter only on a tape
      shorter than the rules can draw. */
  lemma EveryBuilder(b: Builder, level: Level, tape: Tape, fuel: nat)
    requires TOP + 11 <= fuel
    ensures FrameOrShort(Assemble(OpsOf(b), level, BaseChain(level), tape, fuel), tape,
                         Draws(OpsOf(b), level, BaseChain(level), fuel))
  {
    hide BaseChain, FitOps, OpsOf, Stack, Assemble, FrameOrShort, Draws;
    OpsOfFit(b);
    EveryPacket(OpsOf(b), level, tape, fuel);
  }

  /** Hence a packet is built, whatever rand() returns: there is a number of results after which
      every builder has returned. */
  lemma BuilderReturns(b: Builder, level: Level, fuel: nat) returns (n: nat)
    requires TOP + 11 <= fuel
    ensures forall tape: Tape | n <= |tape| :: Returns(Assemble(OpsOf(b), level, BaseChain(level), tape, fuel))
  {
    hide BaseChain, OpsOf, Assemble, Draws, FrameShape;
    n := Draws(OpsOf(b), level, BaseChain(level), fuel);
    forall tape: Tape | n <= |tape| ensures Returns(Assemble(OpsOf(b), level, BaseChain(level), tape, fuel)) {
      EveryBuilder(b, level, tape, fuel);
    }
  }

  predicate Returns(r: Outcome) { r.Ok? && FrameShape(r.octets) }

  /** Whatever rules a builder has overridden by then, "method" keeps a rank and everything it can
      reach stays sane, although the protocol grammar behind it has no stratification. */
  lemma MethodRanked(b: Builder, level: Level, tape: Tape, fuel: nat) returns (L: Ledger)
    requires TOP + 11 <= fuel
    ensures MethodHasRank(RunOps(OpsOf(b), level, map[], BaseChain(level), tape, fuel), BaseChain(level), L, tape,
                          Budget(OpsOf(b), level, map[], BaseChain(level), fuel))
  {
    hide BOUNDS, BaseChain, OpFits, RulesOfAll, Overridable, Holds, Distinct, Meant, RunOps, OpsOf, Ranked, Sane,
        AlikeTables;
    var ops, base, s := OpsOf(b), BaseChain(level), AmqpBasis();
    OpsOfFit(b);
    Ready(ops, level);
    Upto6At();
    assert forall n | s.names(n) :: s.rank(n) <= TOP;
    L := OpsHold(ops, level, map[], base, tape, fuel, FirstLedger(), s);
    var p := RunOps(ops, level, map[], base, tape, fuel);
    if p.Done? { HeldRank([p.head] + base, L, s, "method"); }
  }

  ghost predicate MethodHasRank(p: Progress, base: Chain, L: Ledger, tape: Tape, need: nat)
  {
    match p
    case Stuck(why) => why == OutOfNumbers && |tape| < need
    case Done(head, _) =>
      && Ranked([head] + base, L.names, L.rank) && Sane([head] + base, L.names)
      && L.names("method") && L.rank("method") <= TOP + 10
  }

  lemma HeldRank(c: Chain, L: Ledger, s: Basis, n: string)
    requires Holds(c, L, s, []) && s.names(n)
    ensures Ranked(c, L.names, L.rank) && Sane(c, L.names) && L.names(n) && L.rank(n) <= s.rank(n) + L.depth
  {
  }
}
