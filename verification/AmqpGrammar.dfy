/** The environment the builders decode in, and what it defines, rule by rule. */
module AmqpGrammar {
  import opened CText
  import opened Abnf
  import opened AbnfPrint
  import opened Language
  import opened Override
  import opened AmqpRules

  /** A rule's table entry: STRING for one alternative, STRING_ARRAY for more. */
  function MakeEntry(alts: seq<seq<Piece>>): Entry
  {
    if !ValidRule(alts) then Text("")
    else if |alts| == 1 then Text(AlternativeText(alts[0]))
    else Choice(seq(|alts|, i requires 0 <= i < |alts| => AlternativeText(alts[i])))
  }

  function Load(rules: Rules): Table
  {
    map n | n in rules :: MakeEntry(rules[n])
  }

  /** The entry's alternatives mean what these pieces mean. */
  ghost predicate Means(e: Entry, alts: seq<seq<Piece>>)
  {
    match e
    case Text(text) => |alts| == 1 && Elements(text) == ElementsOf(alts[0])
    case Choice(texts) =>
      |texts| == |alts| > 1 && forall i | 0 <= i < |alts| :: Elements(texts[i]) == ElementsOf(alts[i])
    case _ => false
  }

  ghost predicate Defines(c: Chain, name: string, alts: seq<seq<Piece>>)
  {
    Lookup(c, name).Some? && Means(Lookup(c, name).value, alts)
  }

  lemma MadeMeans(alts: seq<seq<Piece>>)
    requires ValidRule(alts)
    ensures Means(MakeEntry(alts), alts)
  {
    forall i | 0 <= i < |alts| ensures Elements(AlternativeText(alts[i])) == ElementsOf(alts[i]) {
      AlternativeReads(alts[i]);
    }
  }

  /* --- setup_connection_env --- */

  /** The names it touches. */
  predicate Special(name: string)
  {
    Own("short-string", name) || Own("long-string", name)
  }

  /** A connection table with the two string generators installed over a protocol table. */
  function Installed(connection: Table, protocol: Table, level: Level): Table
  {
    Overwrite(Overwrite(connection, [protocol], "short-string", Function(ShortString), level),
              [protocol], "long-string", Function(LongString), level)
  }

  lemma OverwriteElsewhere(t: Table, env: Chain, rule: string, ordered: Entry, level: Level, n: string)
    requires !Own(rule, n)
    ensures var u := Overwrite(t, env, rule, ordered, level);
            (n in u <==> n in t) && (n in t ==> u[n] == t[n])
  {
  }

  lemma InstalledElsewhere(connection: Table, protocol: Table, level: Level, n: string)
    requires !Special(n)
    ensures var u := Installed(connection, protocol, level);
            (n in u <==> n in connection) && (n in connection ==> u[n] == connection[n])
  {
    var t := Overwrite(connection, [protocol], "short-string", Function(ShortString), level);
    OverwriteElsewhere(connection, [protocol], "short-string", Function(ShortString), level, n);
    OverwriteElsewhere(t, [protocol], "long-string", Function(LongString), level, n);
  }

  /** The environment every builder extends: connection grammar, then protocol grammar. */
  function BaseChain(level: Level): Chain
  {
    [Installed(Load(CONNECTION), Load(PROTOCOL), level), Load(PROTOCOL)]
  }

  /** An environment that looks up every name it touches not as these two rule sets say. */
  ghost predicate Models(c: Chain, connection: Rules, protocol: Rules)
  {
    forall n :: !Special(n) ==>
      Lookup(c, n) == if n in connection then Some(MakeEntry(connection[n]))
                      else if n in protocol then Some(MakeEntry(protocol[n]))
                      else None
  }

  ghost predicate IsBase(c: Chain) { Models(c, CONNECTION, PROTOCOL) }

  lemma InstalledModels(connection: Rules, protocol: Rules, level: Level)
    ensures Models([Installed(Load(connection), Load(protocol), level), Load(protocol)], connection, protocol)
  {
    var c := [Installed(Load(connection), Load(protocol), level), Load(protocol)];
    forall n | !Special(n)
      ensures Lookup(c, n) == if n in connection then Some(MakeEntry(connection[n]))
                              else if n in protocol then Some(MakeEntry(protocol[n]))
                              else None
    {
      InstalledElsewhere(Load(connection), Load(protocol), level, n);
      assert c[1..] == [Load(protocol)] && c[1..][1..] == [];
      assert Lookup(c[1..][1..], n) == None;
    }
  }

  lemma BaseModels(level: Level)
    ensures IsBase(BaseChain(level))
  {
    InstalledModels(CONNECTION, PROTOCOL, level);
  }

  /** One of the lists has this rule, and it is not special. */
  ghost predicate Listed(part: Rules, n: string, alts: seq<seq<Piece>>)
  {
    n in part && part[n] == alts && !Special(n)
  }

  lemma FromCommon(c: Chain, n: string, alts: seq<seq<Piece>>)
    requires IsBase(c) && Listed(COMMON, n, alts)
    ensures Defines(c, n, alts)
  {
    hide LIFE_CYCLE, COMMON, START_OK, TUNE_OK, OPEN_CLOSE, PLAIN, CONTENT, CORE, FIELDS, SCALARS, FRAMES, Special;
    hide LIFE_CYCLE_TAGS, COMMON_TAGS, START_OK_TAGS, TUNE_OK_TAGS, OPEN_CLOSE_TAGS, PLAIN_TAGS,
        CONTENT_TAGS, CORE_TAGS, FIELDS_TAGS, SCALARS_TAGS, FRAMES_TAGS, TagOf;
    ConnectionTagged();
    CommonBefore(TagOf(n));
    assert n in CONNECTION && CONNECTION[n] == alts;
    CommonTidy();
    TidyRuleValid(alts);
    MadeMeans(alts);
  }

  lemma FromStartOk(c: Chain, n: string, alts: seq<seq<Piece>>)
    requires IsBase(c) && Listed(START_OK, n, alts)
    ensures Defines(c, n, alts)
  {
    hide LIFE_CYCLE, COMMON, START_OK, TUNE_OK, OPEN_CLOSE, PLAIN, CONTENT, CORE, FIELDS, SCALARS, FRAMES, Special;
    hide LIFE_CYCLE_TAGS, COMMON_TAGS, START_OK_TAGS, TUNE_OK_TAGS, OPEN_CLOSE_TAGS, PLAIN_TAGS,
        CONTENT_TAGS, CORE_TAGS, FIELDS_TAGS, SCALARS_TAGS, FRAMES_TAGS, TagOf;
    ConnectionTagged();
    StartOkBefore(TagOf(n));
    assert n in CONNECTION && CONNECTION[n] == alts;
    StartOkTidy();
    TidyRuleValid(alts);
    MadeMeans(alts);
  }

  lemma FromTuneOk(c: Chain, n: string, alts: seq<seq<Piece>>)
    requires IsBase(c) && Listed(TUNE_OK, n, alts)
    ensures Defines(c, n, alts)
  {
    hide LIFE_CYCLE, COMMON, START_OK, TUNE_OK, OPEN_CLOSE, PLAIN, CONTENT, CORE, FIELDS, SCALARS, FRAMES, Special;
    hide LIFE_CYCLE_TAGS, COMMON_TAGS, START_OK_TAGS, TUNE_OK_TAGS, OPEN_CLOSE_TAGS, PLAIN_TAGS,
        CONTENT_TAGS, CORE_TAGS, FIELDS_TAGS, SCALARS_TAGS, FRAMES_TAGS, TagOf;
    ConnectionTagged();
    TuneOkBefore(TagOf(n));
    assert n in CONNECTION && CONNECTION[n] == alts;
    TuneOkTidy();
    TidyRuleValid(alts);
    MadeMeans(alts);
  }

  lemma FromOpenClose(c: Chain, n: string, alts: seq<seq<Piece>>)
    requires IsBase(c) && Listed(OPEN_CLOSE, n, alts)
    ensures Defines(c, n, alts)
  {
    hide LIFE_CYCLE, COMMON, START_OK, TUNE_OK, OPEN_CLOSE, PLAIN, CONTENT, CORE, FIELDS, SCALARS, FRAMES, Special;
    hide LIFE_CYCLE_TAGS, COMMON_TAGS, START_OK_TAGS, TUNE_OK_TAGS, OPEN_CLOSE_TAGS, PLAIN_TAGS,
        CONTENT_TAGS, CORE_TAGS, FIELDS_TAGS, SCALARS_TAGS, FRAMES_TAGS, TagOf;
    ConnectionTagged();
    OpenCloseBefore(TagOf(n));
    assert n in CONNECTION && CONNECTION[n] == alts;
    OpenCloseTidy();
    TidyRuleValid(alts);
    MadeMeans(alts);
  }

  lemma FromPlain(c: Chain, n: string, alts: seq<seq<Piece>>)
    requires IsBase(c) && Listed(PLAIN, n, alts)
    ensures Defines(c, n, alts)
  {
    hide LIFE_CYCLE, COMMON, START_OK, TUNE_OK, OPEN_CLOSE, PLAIN, CONTENT, CORE, FIELDS, SCALARS, FRAMES, Special;
    assert n in CONNECTION && CONNECTION[n] == alts;
    PlainTidy();
    TidyRuleValid(alts);
    MadeMeans(alts);
  }

  lemma FromContent(c: Chain, n: string, alts: seq<seq<Piece>>)
    requires IsBase(c) && Listed(CONTENT, n, alts)
    ensures Defines(c, n, alts)
  {
    hide LIFE_CYCLE, COMMON, START_OK, TUNE_OK, OPEN_CLOSE, PLAIN, CONTENT, CORE, FIELDS, SCALARS, FRAMES, Special;
    hide LIFE_CYCLE_TAGS, COMMON_TAGS, START_OK_TAGS, TUNE_OK_TAGS, OPEN_CLOSE_TAGS, PLAIN_TAGS,
        CONTENT_TAGS, CORE_TAGS, FIELDS_TAGS, SCALARS_TAGS, FRAMES_TAGS, TagOf;
    ConnectionTagged();
    ProtocolTagged();
    ContentBefore(TagOf(n));
    ContentNotConnection(TagOf(n));
    assert n !in CONNECTION && n in PROTOCOL && PROTOCOL[n] == alts;
    ContentTidy();
    TidyRuleValid(alts);
    MadeMeans(alts);
  }

  lemma FromCore(c: Chain, n: string, alts: seq<seq<Piece>>)
    requires IsBase(c) && Listed(CORE, n, alts)
    ensures Defines(c, n, alts)
  {
    hide LIFE_CYCLE, COMMON, START_OK, TUNE_OK, OPEN_CLOSE, PLAIN, CONTENT, CORE, FIELDS, SCALARS, FRAMES, Special;
    hide LIFE_CYCLE_TAGS, COMMON_TAGS, START_OK_TAGS, TUNE_OK_TAGS, OPEN_CLOSE_TAGS, PLAIN_TAGS,
        CONTENT_TAGS, CORE_TAGS, FIELDS_TAGS, SCALARS_TAGS, FRAMES_TAGS, TagOf;
    ConnectionTagged();
    ProtocolTagged();
    CoreBefore(TagOf(n));
    CoreNotConnection(TagOf(n));
    assert n !in CONNECTION && n in PROTOCOL && PROTOCOL[n] == alts;
    CoreTidy();
    TidyRuleValid(alts);
    MadeMeans(alts);
  }

  lemma FromFields(c: Chain, n: string, alts: seq<seq<Piece>>)
    requires IsBase(c) && Listed(FIELDS, n, alts)
    ensures Defines(c, n, alts)
  {
    hide LIFE_CYCLE, COMMON, START_OK, TUNE_OK, OPEN_CLOSE, PLAIN, CONTENT, CORE, FIELDS, SCALARS, FRAMES, Special;
    hide LIFE_CYCLE_TAGS, COMMON_TAGS, START_OK_TAGS, TUNE_OK_TAGS, OPEN_CLOSE_TAGS, PLAIN_TAGS,
        CONTENT_TAGS, CORE_TAGS, FIELDS_TAGS, SCALARS_TAGS, FRAMES_TAGS, TagOf;
    ConnectionTagged();
    ProtocolTagged();
    FieldsBefore(TagOf(n));
    FieldsNotConnection(TagOf(n));
    assert n !in CONNECTION && n in PROTOCOL && PROTOCOL[n] == alts;
    FieldsTidy();
    TidyRuleValid(alts);
    MadeMeans(alts);
  }

  lemma FromScalars(c: Chain, n: string, alts: seq<seq<Piece>>)
    requires IsBase(c) && Listed(SCALARS, n, alts)
    ensures Defines(c, n, alts)
  {
    hide LIFE_CYCLE, COMMON, START_OK, TUNE_OK, OPEN_CLOSE, PLAIN, CONTENT, CORE, FIELDS, SCALARS, FRAMES, Special;
    hide LIFE_CYCLE_TAGS, COMMON_TAGS, START_OK_TAGS, TUNE_OK_TAGS, OPEN_CLOSE_TAGS, PLAIN_TAGS,
        CONTENT_TAGS, CORE_TAGS, FIELDS_TAGS, SCALARS_TAGS, FRAMES_TAGS, TagOf;
    ConnectionTagged();
    ProtocolTagged();
    ScalarsBefore(TagOf(n));
    ScalarsNotConnection(TagOf(n));
    assert n !in CONNECTION && n in PROTOCOL && PROTOCOL[n] == alts;
    ScalarsTidy();
    TidyRuleValid(alts);
    MadeMeans(alts);
  }

  lemma FromFrames(c: Chain, n: string, alts: seq<seq<Piece>>)
    requires IsBase(c) && Listed(FRAMES, n, alts)
    requires n !in COMMON
    ensures Defines(c, n, alts)
  {
    hide LIFE_CYCLE, COMMON, START_OK, TUNE_OK, OPEN_CLOSE, PLAIN, CONTENT, CORE, FIELDS, SCALARS, FRAMES, Special;
    hide LIFE_CYCLE_TAGS, COMMON_TAGS, START_OK_TAGS, TUNE_OK_TAGS, OPEN_CLOSE_TAGS, PLAIN_TAGS,
        CONTENT_TAGS, CORE_TAGS, FIELDS_TAGS, SCALARS_TAGS, FRAMES_TAGS, TagOf;
    ConnectionTagged();
    ProtocolTagged();
    FramesNotConnection(TagOf(n));
    assert n !in CONNECTION && n in PROTOCOL && PROTOCOL[n] == alts;
    FramesTidy();
    TidyRuleValid(alts);
    MadeMeans(alts);
  }

  /* --- The rules reachable from "method" --- */

  lemma Method(c: Chain)
    requires IsBase(c)
    ensures Defines(c, "method", [[Named("method-frame")]])
  {
    hide IsBase, Defines;
    FromCommon(c, "method", [[Named("method-frame")]]);
  }

  lemma MethodFrame(c: Chain)
    requires IsBase(c)
    ensures Defines(c, "method-frame", [[Dec([1]), Named("frame-properties"), Named("method-payload"),
        Named("frame-end")]])
  {
    hide IsBase, Defines;
    FramesOwn();
    FromFrames(c, "method-frame", [[Dec([1]), Named("frame-properties"), Named("method-payload"), Named("frame-end")]]);
  }

  lemma FrameProperties(c: Chain)
    requires IsBase(c)
    ensures Defines(c, "frame-properties", [[Named("channel"), Named("payload-size")]])
  {
    hide IsBase, Defines;
    FramesOwn();
    FromFrames(c, "frame-properties", [[Named("channel"), Named("payload-size")]]);
  }

  lemma PayloadSize(c: Chain)
    requires IsBase(c)
    ensures Defines(c, "payload-size", [[Named("long-uint")]])
  {
    hide IsBase, Defines;
    FramesOwn();
    FromFrames(c, "payload-size", [[Named("long-uint")]]);
  }

  lemma Channel(c: Chain)
    requires IsBase(c)
    ensures Defines(c, "channel", [[Hex([0x00, 0x00])]])
  {
    hide IsBase, Defines;
    FromCommon(c, "channel", [[Hex([0x00, 0x00])]]);
  }

  lemma FrameEnd(c: Chain)
    requires IsBase(c)
    ensures Defines(c, "frame-end", [[Hex([0xCE])]])
  {
    hide IsBase, Defines;
    FromContent(c, "frame-end", [[Hex([0xCE])]]);
  }

  lemma MethodPayload(c: Chain)
    requires IsBase(c)
    ensures Defines(c, "method-payload", [[Named("class-id"), Named("method-id"), Named("method-properties")]])
  {
    hide IsBase, Defines;
    FromCommon(c, "method-payload", [[Named("class-id"), Named("method-id"), Named("method-properties")]]);
  }

  lemma ClassId(c: Chain)
    requires IsBase(c)
    ensures Defines(c, "class-id", [[Hex([0x00, 0x0A])]])
  {
    hide IsBase, Defines;
    FromCommon(c, "class-id", [[Hex([0x00, 0x0A])]]);
  }

  lemma MethodId(c: Chain)
    requires IsBase(c)
    ensures Defines(c, "method-id", [[HexTo([0x00, 0x01], [0xFF, 0xFF])]])
  {
    hide IsBase, Defines;
    FramesOwn();
    FromFrames(c, "method-id", [[HexTo([0x00, 0x01], [0xFF, 0xFF])]]);
  }

  lemma OCTET(c: Chain)
    requires IsBase(c)
    ensures Defines(c, "OCTET", [[HexTo([0x00], [0xFF])]])
  {
    hide IsBase, Defines;
    FromCore(c, "OCTET", [[HexTo([0x00], [0xFF])]]);
  }

  lemma LongUint(c: Chain)
    requires IsBase(c)
    ensures Defines(c, "long-uint", [[Exactly(4, Named("OCTET"))]])
  {
    hide IsBase, Defines;
    FromFields(c, "long-uint", [[Exactly(4, Named("OCTET"))]]);
  }

  lemma ShortInt(c: Chain)
    requires IsBase(c)
    ensures Defines(c, "short-int", [[Exactly(2, Named("OCTET"))]])
  {
    hide IsBase, Defines;
    FromScalars(c, "short-int", [[Exactly(2, Named("OCTET"))]]);
  }

  lemma LongInt(c: Chain)
    requires IsBase(c)
    ensures Defines(c, "long-int", [[Exactly(4, Named("OCTET"))]])
  {
    hide IsBase, Defines;
    FromScalars(c, "long-int", [[Exactly(4, Named("OCTET"))]]);
  }

  lemma M11MethodId(c: Chain)
    requires IsBase(c)
    ensures Defines(c, "m11-method-id", [[Hex([0x00, 0x0B])]])
  {
    hide IsBase, Defines;
    FromStartOk(c, "m11-method-id", [[Hex([0x00, 0x0B])]]);
  }

  lemma M11MethodProperties(c: Chain)
    requires IsBase(c)
    ensures Defines(c, "m11-method-properties", [[Named("client-properties"), Named("mechanism"), Named("response"),
        Named("locale")]])
  {
    hide IsBase, Defines;
    FromStartOk(c, "m11-method-properties", [[Named("client-properties"), Named("mechanism"), Named("response"),
        Named("locale")]]);
  }

  lemma ClientProperties(c: Chain)
    requires IsBase(c)
    ensures Defines(c, "client-properties", [[Named("client-properties-length"), Named("client-properties-payload")]])
  {
    hide IsBase, Defines;
    FromStartOk(c, "client-properties", [[Named("client-properties-length"), Named("client-properties-payload")]]);
  }

  lemma ClientPropertiesPayload(c: Chain)
    requires IsBase(c)
    ensures Defines(c, "client-properties-payload", [[Hex([0x00, 0x56])]])
  {
    hide IsBase, Defines;
    assert ChaosName("short-string")[0] == 'f' && "client-properties-payload"[0] == 'c';
    FromStartOk(c, "client-properties-payload", [[Hex([0x00, 0x56])]]);
  }

  lemma Mechanism(c: Chain)
    requires IsBase(c)
    ensures Defines(c, "mechanism", [[Dec([5]), Hex([0x50, 0x4C, 0x41, 0x49, 0x4E])]])
  {
    hide IsBase, Defines;
    FromStartOk(c, "mechanism", [[Dec([5]), Hex([0x50, 0x4C, 0x41, 0x49, 0x4E])]]);
  }

  lemma Response(c: Chain)
    requires IsBase(c)
    ensures Defines(c, "response", [[Named("message-length"), Named("message")]])
  {
    hide IsBase, Defines;
    FromStartOk(c, "response", [[Named("message-length"), Named("message")]]);
  }

  lemma Locale(c: Chain)
    requires IsBase(c)
    ensures Defines(c, "locale", [[Dec([5]), Hex([0x65, 0x6E, 0x5F, 0x55, 0x53])]])
  {
    hide IsBase, Defines;
    FromStartOk(c, "locale", [[Dec([5]), Hex([0x65, 0x6E, 0x5F, 0x55, 0x53])]]);
  }

  lemma Message(c: Chain)
    requires IsBase(c)
    ensures Defines(c, "message", [[Bracketed("authzid"), Named("UTF8NUL"), Named("authcid"), Named("UTF8NUL"),
        Named("passwd")]])
  {
    hide IsBase, Defines;
    FromPlain(c, "message", [[Bracketed("authzid"), Named("UTF8NUL"), Named("authcid"), Named("UTF8NUL"),
        Named("passwd")]]);
  }

  lemma Authcid(c: Chain)
    requires IsBase(c)
    ensures Defines(c, "authcid", [[AtLeast(1, Named("SAFE"))]])
  {
    hide IsBase, Defines;
    FromPlain(c, "authcid", [[AtLeast(1, Named("SAFE"))]]);
  }

  lemma Passwd(c: Chain)
    requires IsBase(c)
    ensures Defines(c, "passwd", [[AtLeast(1, Named("SAFE"))]])
  {
    hide IsBase, Defines;
    FromPlain(c, "passwd", [[AtLeast(1, Named("SAFE"))]]);
  }

  lemma UTF8NUL(c: Chain)
    requires IsBase(c)
    ensures Defines(c, "UTF8NUL", [[Hex([0x00])]])
  {
    hide IsBase, Defines;
    FromPlain(c, "UTF8NUL", [[Hex([0x00])]]);
  }

  lemma SAFE(c: Chain)
    requires IsBase(c)
    ensures Defines(c, "SAFE", [[Named("UTF1")], [Named("UTF2")], [Named("UTF3")], [Named("UTF4")]])
  {
    hide IsBase, Defines;
    FromPlain(c, "SAFE", [[Named("UTF1")], [Named("UTF2")], [Named("UTF3")], [Named("UTF4")]]);
  }

  lemma UTF1(c: Chain)
    requires IsBase(c)
    ensures Defines(c, "UTF1", [[HexTo([0x01], [0x7F])]])
  {
    hide IsBase, Defines;
    FromPlain(c, "UTF1", [[HexTo([0x01], [0x7F])]]);
  }

  lemma UTF2(c: Chain)
    requires IsBase(c)
    ensures Defines(c, "UTF2", [[HexTo([0xC2], [0xDF]), Named("UTF0")]])
  {
    hide IsBase, Defines;
    FromPlain(c, "UTF2", [[HexTo([0xC2], [0xDF]), Named("UTF0")]]);
  }

  lemma UTF3(c: Chain)
    requires IsBase(c)
    ensures Defines(c, "UTF3", Utf3Rule("UTF0"))
  {
    hide IsBase, Defines;
    FromPlain(c, "UTF3", Utf3Rule("UTF0"));
  }

  lemma UTF4(c: Chain)
    requires IsBase(c)
    ensures Defines(c, "UTF4", Utf4Rule("UTF0"))
  {
    hide IsBase, Defines;
    FromPlain(c, "UTF4", Utf4Rule("UTF0"));
  }

  lemma UTF0(c: Chain)
    requires IsBase(c)
    ensures Defines(c, "UTF0", [[HexTo([0x80], [0xBF])]])
  {
    hide IsBase, Defines;
    FromPlain(c, "UTF0", [[HexTo([0x80], [0xBF])]]);
  }

  lemma M31MethodId(c: Chain)
    requires IsBase(c)
    ensures Defines(c, "m31-method-id", [[Hex([0x00, 0x1F])]])
  {
    hide IsBase, Defines;
    FromTuneOk(c, "m31-method-id", [[Hex([0x00, 0x1F])]]);
  }

  lemma M31MethodProperties(c: Chain)
    requires IsBase(c)
    ensures Defines(c, "m31-method-properties", [[Named("channel-max"), Named("frame-max"), Named("heartbeat-time")]])
  {
    hide IsBase, Defines;
    FromTuneOk(c, "m31-method-properties", [[Named("channel-max"), Named("frame-max"), Named("heartbeat-time")]]);
  }

  lemma ChannelMax(c: Chain)
    requires IsBase(c)
    ensures Defines(c, "channel-max", [[Named("short-int")]])
  {
    hide IsBase, Defines;
    FromTuneOk(c, "channel-max", [[Named("short-int")]]);
  }

  lemma FrameMax(c: Chain)
    requires IsBase(c)
    ensures Defines(c, "frame-max", [[Named("long-int")]])
  {
    hide IsBase, Defines;
    FromTuneOk(c, "frame-max", [[Named("long-int")]]);
  }

  lemma HeartbeatTime(c: Chain)
    requires IsBase(c)
    ensures Defines(c, "heartbeat-time", [[Named("short-int")]])
  {
    hide IsBase, Defines;
    FromTuneOk(c, "heartbeat-time", [[Named("short-int")]]);
  }

  lemma M40MethodId(c: Chain)
    requires IsBase(c)
    ensures Defines(c, "m40-method-id", [[Hex([0x00, 0x28])]])
  {
    hide IsBase, Defines;
    FromOpenClose(c, "m40-method-id", [[Hex([0x00, 0x28])]]);
  }

  lemma M40MethodProperties(c: Chain)
    requires IsBase(c)
    ensures Defines(c, "m40-method-properties", [[Named("virtual-host"), Dec([0]), Dec([0])]])
  {
    hide IsBase, Defines;
    FromOpenClose(c, "m40-method-properties", [[Named("virtual-host"), Dec([0]), Dec([0])]]);
  }

  lemma M50MethodId(c: Chain)
    requires IsBase(c)
    ensures Defines(c, "m50-method-id", [[Hex([0x00, 0x32])]])
  {
    hide IsBase, Defines;
    FromOpenClose(c, "m50-method-id", [[Hex([0x00, 0x32])]]);
  }

  lemma M50MethodProperties(c: Chain)
    requires IsBase(c)
    ensures Defines(c, "m50-method-properties", [[Named("reply-code"), Named("reply-text"), Named("m50-class-id-val"),
        Named("m50-method-id-val")]])
  {
    hide IsBase, Defines;
    FromOpenClose(c, "m50-method-properties", [[Named("reply-code"), Named("reply-text"), Named("m50-class-id-val"),
        Named("m50-method-id-val")]]);
  }

  lemma M50ClassIdVal(c: Chain)
    requires IsBase(c)
    ensures Defines(c, "m50-class-id-val", [[Named("class-id")]])
  {
    hide IsBase, Defines;
    FromOpenClose(c, "m50-class-id-val", [[Named("class-id")]]);
  }

  lemma M50MethodIdVal(c: Chain)
    requires IsBase(c)
    ensures Defines(c, "m50-method-id-val", [[Named("method-id")]])
  {
    hide IsBase, Defines;
    FromOpenClose(c, "m50-method-id-val", [[Named("method-id")]]);
  }

  lemma ReplyCode(c: Chain)
    requires IsBase(c)
    ensures Defines(c, "reply-code", [[Named("short-int")]])
  {
    hide IsBase, Defines;
    FromOpenClose(c, "reply-code", [[Named("short-int")]]);
  }

  lemma ReplyText(c: Chain)
    requires IsBase(c)
    ensures Defines(c, "reply-text", [[Named("shortstr")]])
  {
    hide IsBase, Defines;
    FromOpenClose(c, "reply-text", [[Named("shortstr")]]);
  }

  lemma M51MethodId(c: Chain)
    requires IsBase(c)
    ensures Defines(c, "m51-method-id", [[Hex([0x00, 0x33])]])
  {
    hide IsBase, Defines;
    FromOpenClose(c, "m51-method-id", [[Hex([0x00, 0x33])]]);
  }
}
