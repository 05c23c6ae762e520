/** The rules of abnf/, one by one, as the pieces their text is made of. */
module AmqpRules {
  import opened Octets
  import opened AbnfPrint

  /** Rules as lists of alternatives, each a list of pieces; the text is their printed form. */
  type Rules = map<string, seq<seq<Piece>>>

  function Hex(octets: seq<byte>): Piece { Symbol(16, octets) }
  function Dec(octets: seq<byte>): Piece { Symbol(10, octets) }
  function Bin(octets: seq<byte>): Piece { Symbol(2, octets) }
  function HexTo(lo: seq<byte>, hi: seq<byte>): Piece { Interval(16, lo, hi) }

  /** abnf/grammar-connection, lines 1 to 5: the connection life cycle, never decoded. */
  const LIFE_CYCLE: Rules := map[
    "connection" := [[Named("open-connection"), Any(Named("use-connection")), Named("close-connection")]],
    "open-connection" := [
        [Named("C:protocol-header"), Named("S:START"), Named("C:START-OK"), Any(Named("challenge")), Named("S:TUNE"),
            Named("C:TUNE-OK"), Named("C:OPEN"), Named("S:OPEN-OK")]],
    "challenge" := [[Named("S:SECURE"), Named("C:SECURE-OK")]],
    "use-connection" := [[Named("C:CLOSE"), Named("S:CLOSE-OK")]],
    "close-connection" := [[Named("C:CLOSE"), Named("S:CLOSE-OK")], [Named("S:CLOSE"), Named("C:CLOSE-OK")]]
  ]

  /** abnf/grammar-connection, lines 7 to 10: what every method shares. */
  const COMMON: Rules := map[
    "method" := [[Named("method-frame")]],
    "channel" := [[Hex([0x00, 0x00])]],
    "class-id" := [[Hex([0x00, 0x0A])]],
    "method-payload" := [[Named("class-id"), Named("method-id"), Named("method-properties")]]
  ]

  /** abnf/grammar-connection, lines 15 to 29: Start-Ok. */
  const START_OK: Rules := map[
    "m11-method-id" := [[Hex([0x00, 0x0B])]],
    "m11-method-properties" := [[Named("client-properties"), Named("mechanism"), Named("response"), Named("locale")]],
    "client-properties" := [[Named("client-properties-length"), Named("client-properties-payload")]],
    "; client-properties-payload" := [
        [Spelled(10, ["07"]), Quote("product"), Hex([0x53]), Named("product-value"), Spelled(10, ["07"]),
            Quote("version"), Hex([0x53]), Named("version-value"), Spelled(10, ["08"]),
            Quote("platform"), Hex([0x53]), Named("platform-value")]],
    "client-properties-payload" := [[Hex([0x00, 0x56])]],
    "product-value" := [[Named("long-string")]],
    "version-value" := [[Named("long-string")]],
    "platform-value" := [[Named("long-string")]],
    "mechanism" := [[Dec([5]), Hex([0x50, 0x4C, 0x41, 0x49, 0x4E])]],
    "response" := [[Named("message-length"), Named("message")]],
    "locale" := [[Dec([5]), Hex([0x65, 0x6E, 0x5F, 0x55, 0x53])]]
  ]

  /** abnf/grammar-connection, lines 31 to 35: Tune-Ok. */
  const TUNE_OK: Rules := map[
    "m31-method-id" := [[Hex([0x00, 0x1F])]],
    "m31-method-properties" := [[Named("channel-max"), Named("frame-max"), Named("heartbeat-time")]],
    "channel-max" := [[Named("short-int")]],
    "frame-max" := [[Named("long-int")]],
    "heartbeat-time" := [[Named("short-int")]]
  ]

  /** abnf/grammar-connection, lines 37 to 47: Open, Close and Close-Ok. */
  const OPEN_CLOSE: Rules := map[
    "m40-method-id" := [[Hex([0x00, 0x28])]],
    "m40-method-properties" := [[Named("virtual-host"), Dec([0]), Dec([0])]],
    "m50-method-id" := [[Hex([0x00, 0x32])]],
    "m50-method-properties" := [
        [Named("reply-code"), Named("reply-text"), Named("m50-class-id-val"), Named("m50-method-id-val")]],
    "m50-class-id-val" := [[Named("class-id")]],
    "m50-method-id-val" := [[Named("method-id")]],
    "reply-code" := [[Named("short-int")]],
    "reply-text" := [[Named("shortstr")]],
    "m51-method-id" := [[Hex([0x00, 0x33])]]
  ]

  /** abnf/grammar-connection, lines 52 to 65: the PLAIN message of RFC 4616. */
  const PLAIN: Rules := map[
    "message" := [[Bracketed("authzid"), Named("UTF8NUL"), Named("authcid"), Named("UTF8NUL"), Named("passwd")]],
    "authcid" := [[AtLeast(1, Named("SAFE"))]],
    "authzid" := [[AtLeast(1, Named("SAFE"))]],
    "passwd" := [[AtLeast(1, Named("SAFE"))]],
    "UTF8NUL" := [[Hex([0x00])]],
    "SAFE" := [[Named("UTF1")], [Named("UTF2")], [Named("UTF3")], [Named("UTF4")]],
    "UTF1" := [[HexTo([0x01], [0x7F])]],
    "UTF2" := [[HexTo([0xC2], [0xDF]), Named("UTF0")]],
    "UTF3" := [[Hex([0xE0]), HexTo([0xA0], [0xBF]), Named("UTF0")],
        [HexTo([0xE1], [0xEC]), Exactly(2, Named("UTF0"))], [Hex([0xED]), HexTo([0x80], [0x9F]), Named("UTF0")],
        [HexTo([0xEE], [0xEF]), Exactly(2, Named("UTF0"))]],
    "UTF4" := [[Hex([0xF0]), HexTo([0x90], [0xBF]), Exactly(2, Named("UTF0"))],
        [HexTo([0xF1], [0xF3]), Exactly(3, Named("UTF0"))],
        [Hex([0xF4]), HexTo([0x80], [0x8F]), Exactly(2, Named("UTF0"))]],
    "UTF0" := [[HexTo([0x80], [0xBF])]]
  ]

  /** abnf/grammar-spec, lines 1 to 14: protocol header and frames. */
  const FRAMES: Rules := map[
    "amqp" := [[Named("protocol-header")]],
    "protocol-header" := [[Named("literal-AMQP"), Named("protocol-id"), Named("protocol-version")]],
    "literal-AMQP" := [[Dec([65, 77, 81, 80])]],
    "protocol-id" := [[Dec([0])]],
    "protocol-version" := [[Dec([0, 9, 1])]],
    "method" := [[Named("method-frame"), Bracketed("content")]],
    "method-frame" := [[Dec([1]), Named("frame-properties"), Named("method-payload"), Named("frame-end")]],
    "frame-properties" := [[Named("channel"), Named("payload-size")]],
    "channel" := [[Named("short-uint")]],
    "payload-size" := [[Named("long-uint")]],
    "method-payload" := [[Named("class-id"), Named("method-id"), Any(Named("amqp-field"))]],
    "class-id" := [[HexTo([0x00, 0x01], [0xFF, 0xFF])]],
    "method-id" := [[HexTo([0x00, 0x01], [0xFF, 0xFF])]],
    "amqp-field" := [[Named("BIT")], [Named("OCTET")], [Named("short-uint")], [Named("long-uint")],
        [Named("long-long-uint")], [Named("short-string")], [Named("long-string")], [Named("timestamp")],
        [Named("field-table")]]
  ]

  /** abnf/grammar-spec, lines 15 to 25: field types. */
  const FIELDS: Rules := map[
    "short-uint" := [[Exactly(2, Named("OCTET"))]],
    "long-uint" := [[Exactly(4, Named("OCTET"))]],
    "long-long-uint" := [[Exactly(8, Named("OCTET"))]],
    "short-string" := [[Named("OCTET"), Any(Named("string-char"))]],
    "string-char" := [[HexTo([0x01], [0xFF])]],
    "long-string" := [[Named("long-uint"), Any(Named("OCTET"))]],
    "timestamp" := [[Named("long-long-uint")]],
    "field-table" := [[Named("long-uint"), Any(Named("field-value-pair"))]],
    "field-value-pair" := [[Named("field-name"), Named("field-value")]],
    "field-name" := [[Named("short-string")]],
    "field-value" := [[Hex([0x74]), Named("boolean")], [Hex([0x62]), Named("short-short-int")],
        [Hex([0x42]), Named("short-short-uint")], [Hex([0x55]), Named("short-int")],
        [Hex([0x75]), Named("short-uint")], [Hex([0x49]), Named("long-int")], [Hex([0x69]), Named("long-uint")],
        [Spelled(16, ["4c"]), Named("long-long-int")], [Spelled(16, ["6c"]), Named("long-long-uint")],
        [Hex([0x66]), Named("float")], [Hex([0x64]), Named("double")], [Hex([0x44]), Named("decimal-value")],
        [Hex([0x73]), Named("short-string")], [Hex([0x53]), Named("long-string")],
        [Hex([0x41]), Named("field-array")], [Hex([0x54]), Named("timestamp")],
        [Hex([0x46]), Named("field-table")], [Hex([0x56])]]
  ]

  /** abnf/grammar-spec, lines 26 to 36: scalar field types. */
  const SCALARS: Rules := map[
    "boolean" := [[Named("OCTET")]],
    "short-short-int" := [[Named("OCTET")]],
    "short-short-uint" := [[Named("OCTET")]],
    "short-int" := [[Exactly(2, Named("OCTET"))]],
    "long-int" := [[Exactly(4, Named("OCTET"))]],
    "long-long-int" := [[Exactly(8, Named("OCTET"))]],
    "float" := [[Exactly(4, Named("OCTET"))]],
    "double" := [[Exactly(8, Named("OCTET"))]],
    "decimal-value" := [[Named("scale"), Named("long-uint")]],
    "scale" := [[Named("OCTET")]],
    "field-array" := [[Named("long-int"), Any(Named("field-value"))]]
  ]

  /** abnf/grammar-spec, lines 37 to 48: content frames. */
  const CONTENT: Rules := map[
    "frame-end" := [[Hex([0xCE])]],
    "content" := [[Dec([2]), Named("content-header"), Any(Named("content-body"))]],
    "content-header" := [[Named("frame-properties"), Named("header-payload"), Named("frame-end")]],
    "header-payload" := [
        [Named("content-class"), Named("content-weight"), Named("content-body-size"), Named("property-flags"),
            Named("property-list")]],
    "content-class" := [[Named("OCTET")]],
    "content-weight" := [[Hex([0x00])]],
    "content-body-size" := [[Named("long-long-uint")]],
    "property-flags" := [[AtLeast(15, Named("BIT")), Bin([0])],
        [AtLeast(15, Named("BIT")), Bin([1]), Named("property-flags")]],
    "property-list" := [[Any(Named("amqp-field"))]],
    "content-body" := [[Dec([3]), Named("frame-properties"), Named("body-payload"), Named("frame-end")]],
    "body-payload" := [[Any(Named("OCTET"))]],
    "heartbeat" := [[Dec([8]), Dec([0]), Dec([0]), Named("frame-end")]]
  ]

  /** abnf/grammar-abnf: core rules of RFC 5234. */
  const CORE: Rules := map[
    "ALPHA" := [[HexTo([0x41], [0x5A])], [HexTo([0x61], [0x7A])]],
    "BIT" := [[Quote("0")], [Quote("1")]],
    "CHAR" := [[HexTo([0x01], [0x7F])]],
    "DIGIT" := [[HexTo([0x30], [0x39])]],
    "DQUOTE" := [[Hex([0x22])]],
    "HEXDIG" := [[Named("DIGIT")], [Quote("A")], [Quote("B")], [Quote("C")], [Quote("D")], [Quote("E")],
        [Quote("F")]],
    "OCTET" := [[HexTo([0x00], [0xFF])]]
  ]

  const CONNECTION: Rules := LIFE_CYCLE + COMMON + START_OK + TUNE_OK + OPEN_CLOSE + PLAIN
  const PROTOCOL: Rules := CONTENT + CORE + FIELDS + SCALARS + FRAMES

  /** The three- and four-octet characters of PLAIN, by the name of their trailing octets. */
  function Utf3Rule(tail: string): seq<seq<Piece>>
  {
    [[Hex([0xE0]), HexTo([0xA0], [0xBF]), Named(tail)], [HexTo([0xE1], [0xEC]), Exactly(2, Named(tail))],
     [Hex([0xED]), HexTo([0x80], [0x9F]), Named(tail)], [HexTo([0xEE], [0xEF]), Exactly(2, Named(tail))]]
  }

  function Utf4Rule(tail: string): seq<seq<Piece>>
  {
    [[Hex([0xF0]), HexTo([0x90], [0xBF]), Exactly(2, Named(tail))], [HexTo([0xF1], [0xF3]), Exactly(3, Named(tail))],
     [Hex([0xF4]), HexTo([0x80], [0x8F]), Exactly(2, Named(tail))]]
  }

  predicate ValidRule(alts: seq<seq<Piece>>)
  {
    alts != [] && forall i | 0 <= i < |alts| :: ValidAll(alts[i])
  }

  /* --- Telling rules apart --- */

  /** Length, first three characters and last one: no two rules of abnf/ share them. */
  type Tag = (nat, char, char, char, char)

  function TagOf(n: string): Tag
  {
    if |n| < 3 then (|n|, ' ', ' ', ' ', ' ') else (|n|, n[0], n[1], n[2], n[|n| - 1])
  }

  ghost predicate Tagged(part: Rules, tags: set<Tag>) { forall n | n in part :: TagOf(n) in tags }

  const LIFE_CYCLE_TAGS: set<Tag> := {
    (10, 'c', 'o', 'n', 'n'), (15, 'o', 'p', 'e', 'n'), (9, 'c', 'h', 'a', 'e'), (14, 'u', 's', 'e', 'n'),
    (16, 'c', 'l', 'o', 'n')
  }

  const COMMON_TAGS: set<Tag> := {
    (6, 'm', 'e', 't', 'd'), (7, 'c', 'h', 'a', 'l'), (8, 'c', 'l', 'a', 'd'), (14, 'm', 'e', 't', 'd')
  }

  const START_OK_TAGS: set<Tag> := {
    (13, 'm', '1', '1', 'd'), (21, 'm', '1', '1', 's'), (17, 'c', 'l', 'i', 's'), (27, ';', ' ', 'c', 'd'),
    (25, 'c', 'l', 'i', 'd'), (13, 'p', 'r', 'o', 'e'), (13, 'v', 'e', 'r', 'e'), (14, 'p', 'l', 'a', 'e'),
    (9, 'm', 'e', 'c', 'm'), (8, 'r', 'e', 's', 'e'), (6, 'l', 'o', 'c', 'e')
  }

  const TUNE_OK_TAGS: set<Tag> := {
    (13, 'm', '3', '1', 'd'), (21, 'm', '3', '1', 's'), (11, 'c', 'h', 'a', 'x'), (9, 'f', 'r', 'a', 'x'),
    (14, 'h', 'e', 'a', 'e')
  }

  const OPEN_CLOSE_TAGS: set<Tag> := {
    (13, 'm', '4', '0', 'd'), (21, 'm', '4', '0', 's'), (13, 'm', '5', '0', 'd'), (21, 'm', '5', '0', 's'),
    (16, 'm', '5', '0', 'l'), (17, 'm', '5', '0', 'l'), (10, 'r', 'e', 'p', 'e'), (10, 'r', 'e', 'p', 't'),
    (13, 'm', '5', '1', 'd')
  }

  const PLAIN_TAGS: set<Tag> := {
    (7, 'm', 'e', 's', 'e'), (7, 'a', 'u', 't', 'd'), (6, 'p', 'a', 's', 'd'), (7, 'U', 'T', 'F', 'L'),
    (4, 'S', 'A', 'F', 'E'), (4, 'U', 'T', 'F', '1'), (4, 'U', 'T', 'F', '2'), (4, 'U', 'T', 'F', '3'),
    (4, 'U', 'T', 'F', '4'), (4, 'U', 'T', 'F', '0')
  }

  const CONTENT_TAGS: set<Tag> := {
    (9, 'f', 'r', 'a', 'd'), (7, 'c', 'o', 'n', 't'), (14, 'c', 'o', 'n', 'r'), (14, 'h', 'e', 'a', 'd'),
    (13, 'c', 'o', 'n', 's'), (14, 'c', 'o', 'n', 't'), (17, 'c', 'o', 'n', 'e'), (14, 'p', 'r', 'o', 's'),
    (13, 'p', 'r', 'o', 't'), (12, 'c', 'o', 'n', 'y'), (12, 'b', 'o', 'd', 'd'), (9, 'h', 'e', 'a', 't')
  }

  const CORE_TAGS: set<Tag> := {
    (5, 'A', 'L', 'P', 'A'), (3, 'B', 'I', 'T', 'T'), (4, 'C', 'H', 'A', 'R'), (5, 'D', 'I', 'G', 'T'),
    (6, 'D', 'Q', 'U', 'E'), (6, 'H', 'E', 'X', 'G'), (5, 'O', 'C', 'T', 'T')
  }

  const FIELDS_TAGS: set<Tag> := {
    (10, 's', 'h', 'o', 't'), (9, 'l', 'o', 'n', 't'), (14, 'l', 'o', 'n', 't'), (12, 's', 'h', 'o', 'g'),
    (11, 's', 't', 'r', 'r'), (11, 'l', 'o', 'n', 'g'), (9, 't', 'i', 'm', 'p'), (11, 'f', 'i', 'e', 'e'),
    (16, 'f', 'i', 'e', 'r'), (10, 'f', 'i', 'e', 'e')
  }

  const SCALARS_TAGS: set<Tag> := {
    (7, 'b', 'o', 'o', 'n'), (15, 's', 'h', 'o', 't'), (16, 's', 'h', 'o', 't'), (9, 's', 'h', 'o', 't'),
    (8, 'l', 'o', 'n', 't'), (13, 'l', 'o', 'n', 't'), (5, 'f', 'l', 'o', 't'), (6, 'd', 'o', 'u', 'e'),
    (13, 'd', 'e', 'c', 'e'), (5, 's', 'c', 'a', 'e'), (11, 'f', 'i', 'e', 'y')
  }

  const FRAMES_TAGS: set<Tag> := {
    (4, 'a', 'm', 'q', 'p'), (15, 'p', 'r', 'o', 'r'), (12, 'l', 'i', 't', 'P'), (11, 'p', 'r', 'o', 'd'),
    (16, 'p', 'r', 'o', 'n'), (6, 'm', 'e', 't', 'd'), (12, 'm', 'e', 't', 'e'), (16, 'f', 'r', 'a', 's'),
    (7, 'c', 'h', 'a', 'l'), (12, 'p', 'a', 'y', 'e'), (14, 'm', 'e', 't', 'd'), (8, 'c', 'l', 'a', 'd'),
    (9, 'm', 'e', 't', 'd'), (10, 'a', 'm', 'q', 'd')
  }

  lemma LifeCycleTagged() ensures Tagged(LIFE_CYCLE, LIFE_CYCLE_TAGS) { }
  lemma CommonTagged() ensures Tagged(COMMON, COMMON_TAGS) { }
  lemma StartOkTagged() ensures Tagged(START_OK, START_OK_TAGS) { }
  lemma TuneOkTagged() ensures Tagged(TUNE_OK, TUNE_OK_TAGS) { }
  lemma OpenCloseTagged() ensures Tagged(OPEN_CLOSE, OPEN_CLOSE_TAGS) { }
  lemma PlainTagged() ensures Tagged(PLAIN, PLAIN_TAGS) { }
  lemma ContentTagged() ensures Tagged(CONTENT, CONTENT_TAGS) { }
  lemma CoreTagged() ensures Tagged(CORE, CORE_TAGS) { }
  lemma FieldsTagged() ensures Tagged(FIELDS, FIELDS_TAGS) { }
  lemma ScalarsTagged() ensures Tagged(SCALARS, SCALARS_TAGS) { }
  lemma FramesTagged() ensures Tagged(FRAMES, FRAMES_TAGS) { }

  lemma ConnectionTagged()
    ensures Tagged(LIFE_CYCLE, LIFE_CYCLE_TAGS) && Tagged(COMMON, COMMON_TAGS) && Tagged(START_OK, START_OK_TAGS)
    ensures Tagged(TUNE_OK, TUNE_OK_TAGS) && Tagged(OPEN_CLOSE, OPEN_CLOSE_TAGS) && Tagged(PLAIN, PLAIN_TAGS)
  {
    hide *;
    LifeCycleTagged(); CommonTagged(); StartOkTagged(); TuneOkTagged(); OpenCloseTagged(); PlainTagged();
  }

  lemma ProtocolTagged()
    ensures Tagged(CONTENT, CONTENT_TAGS) && Tagged(CORE, CORE_TAGS) && Tagged(FIELDS, FIELDS_TAGS)
    ensures Tagged(SCALARS, SCALARS_TAGS) && Tagged(FRAMES, FRAMES_TAGS)
  {
    hide *;
    ContentTagged(); CoreTagged(); FieldsTagged(); ScalarsTagged(); FramesTagged();
  }

  lemma CommonBefore(t: Tag)
    requires t in COMMON_TAGS
    ensures t !in START_OK_TAGS && t !in TUNE_OK_TAGS && t !in OPEN_CLOSE_TAGS && t !in PLAIN_TAGS
  {
  }

  lemma StartOkBefore(t: Tag)
    requires t in START_OK_TAGS
    ensures t !in TUNE_OK_TAGS && t !in OPEN_CLOSE_TAGS && t !in PLAIN_TAGS
  {
  }

  lemma TuneOkBefore(t: Tag)
    requires t in TUNE_OK_TAGS
    ensures t !in OPEN_CLOSE_TAGS && t !in PLAIN_TAGS
  {
  }

  lemma OpenCloseBefore(t: Tag)
    requires t in OPEN_CLOSE_TAGS
    ensures t !in PLAIN_TAGS
  {
  }

  lemma ContentBefore(t: Tag)
    requires t in CONTENT_TAGS
    ensures t !in CORE_TAGS && t !in FIELDS_TAGS && t !in SCALARS_TAGS && t !in FRAMES_TAGS
  {
  }

  lemma CoreBefore(t: Tag)
    requires t in CORE_TAGS
    ensures t !in FIELDS_TAGS && t !in SCALARS_TAGS && t !in FRAMES_TAGS
  {
  }

  lemma FieldsBefore(t: Tag)
    requires t in FIELDS_TAGS
    ensures t !in SCALARS_TAGS && t !in FRAMES_TAGS
  {
  }

  lemma ScalarsBefore(t: Tag)
    requires t in SCALARS_TAGS
    ensures t !in FRAMES_TAGS
  {
  }

  lemma ContentNotConnection(t: Tag)
    requires t in CONTENT_TAGS
    ensures t !in LIFE_CYCLE_TAGS && t !in COMMON_TAGS && t !in START_OK_TAGS
    ensures t !in TUNE_OK_TAGS && t !in OPEN_CLOSE_TAGS && t !in PLAIN_TAGS
  {
  }

  lemma CoreNotConnection(t: Tag)
    requires t in CORE_TAGS
    ensures t !in LIFE_CYCLE_TAGS && t !in COMMON_TAGS && t !in START_OK_TAGS
    ensures t !in TUNE_OK_TAGS && t !in OPEN_CLOSE_TAGS && t !in PLAIN_TAGS
  {
  }

  lemma FieldsNotConnection(t: Tag)
    requires t in FIELDS_TAGS
    ensures t !in LIFE_CYCLE_TAGS && t !in COMMON_TAGS && t !in START_OK_TAGS
    ensures t !in TUNE_OK_TAGS && t !in OPEN_CLOSE_TAGS && t !in PLAIN_TAGS
  {
  }

  lemma ScalarsNotConnection(t: Tag)
    requires t in SCALARS_TAGS
    ensures t !in LIFE_CYCLE_TAGS && t !in COMMON_TAGS && t !in START_OK_TAGS
    ensures t !in TUNE_OK_TAGS && t !in OPEN_CLOSE_TAGS && t !in PLAIN_TAGS
  {
  }

  lemma FramesNotConnection(t: Tag)
    requires t in FRAMES_TAGS
    ensures t !in LIFE_CYCLE_TAGS && t !in START_OK_TAGS && t !in TUNE_OK_TAGS
    ensures t !in OPEN_CLOSE_TAGS && t !in PLAIN_TAGS
  {
  }

  /** The rules of abnf/grammar-spec that abnf/grammar-connection does not replace. */
  lemma FramesOwn()
    ensures "method-frame" !in COMMON && "frame-properties" !in COMMON
    ensures "payload-size" !in COMMON && "method-id" !in COMMON
  {
  }

  /** The tag of no rule at all. */
  predicate Unlisted(t: Tag)
  {
    && t !in LIFE_CYCLE_TAGS && t !in COMMON_TAGS && t !in START_OK_TAGS
    && t !in TUNE_OK_TAGS && t !in OPEN_CLOSE_TAGS && t !in PLAIN_TAGS
    && t !in CONTENT_TAGS && t !in CORE_TAGS && t !in FIELDS_TAGS && t !in SCALARS_TAGS && t !in FRAMES_TAGS
  }

  lemma UnlistedNowhere(n: string)
    requires Unlisted(TagOf(n))
    ensures n !in CONNECTION && n !in PROTOCOL
  {
    hide LIFE_CYCLE, COMMON, START_OK, TUNE_OK, OPEN_CLOSE, PLAIN, CONTENT, CORE, FIELDS, SCALARS, FRAMES, TagOf;
    hide LIFE_CYCLE_TAGS, COMMON_TAGS, START_OK_TAGS, TUNE_OK_TAGS, OPEN_CLOSE_TAGS, PLAIN_TAGS;
    hide CONTENT_TAGS, CORE_TAGS, FIELDS_TAGS, SCALARS_TAGS, FRAMES_TAGS;
    ConnectionTagged();
    ProtocolTagged();
  }

  /* --- The rules are tidy: names, quotes and brackets hold no delimiter --- */

  predicate TidyRule(alts: seq<seq<Piece>>) { alts != [] && forall ps | ps in alts :: TidyAll(ps) }

  ghost predicate TidyRules(rules: Rules) { forall n | n in rules :: Key(n) && TidyRule(rules[n]) }

  lemma TidyRuleValid(alts: seq<seq<Piece>>)
    requires TidyRule(alts)
    ensures ValidRule(alts)
  {
    forall ps | ps in alts ensures ValidAll(ps) {
      AlternativeClean(ps);
    }
  }

  lemma CommentKey()
    ensures Key("; client-properties-payload")
  {
  }

  lemma NamedTidy()
    ensures forall s | Name(s) :: Tidy(Named(s))
  {
  }

  lemma SymbolTidy()
    ensures forall base, octets | base in {2, 10, 16} && octets != [] :: Tidy(Symbol(base, octets))
  {
  }

  lemma SpelledTidy()
    ensures Tidy(Spelled(16, ["4c"])) && Tidy(Spelled(16, ["6c"]))
  {
  }

  lemma LifeCycleWords()
    ensures Name("connection") && Name("open-connection") && Name("challenge") && Name("use-connection")
  {
  }

  lemma LifeCycleWords'()
    ensures Name("close-connection") && Name("C:protocol-header") && Name("S:START") && Name("C:START-OK")
    ensures Name("S:TUNE")
  {
  }

  lemma LifeCycleWords''()
    ensures Name("C:TUNE-OK") && Name("C:OPEN") && Name("S:OPEN-OK") && Name("S:SECURE")
    ensures Name("C:SECURE-OK") && Name("C:CLOSE")
  {
  }

  lemma LifeCycleWords'''()
    ensures Name("S:CLOSE-OK") && Name("S:CLOSE") && Name("C:CLOSE-OK")
  {
  }

  lemma LifeCycleNamed()
    ensures forall n | n in LIFE_CYCLE :: Name(n)
  {
    hide Name;
    LifeCycleWords();
    LifeCycleWords'();
  }

  lemma OpenConnectionTidy()
    ensures TidyRule(LIFE_CYCLE["open-connection"])
  {
    hide Name, NeatQuote, Neat;
    LifeCycleWords'();
    LifeCycleWords();
    LifeCycleWords''();
  }

  lemma LifeCycleTidy()
    ensures forall n | n in LIFE_CYCLE :: TidyRule(LIFE_CYCLE[n])
  {
    hide Name, NeatQuote, Neat;
    LifeCycleWords();
    LifeCycleWords'();
    LifeCycleWords''();
    LifeCycleWords'''();
    OpenConnectionTidy();
  }

  lemma CommonWords()
    ensures Name("method") && Name("channel") && Name("class-id") && Name("method-payload")
    ensures Name("method-properties")
  {
  }

  lemma CommonNamed()
    ensures forall n | n in COMMON :: Name(n)
  {
    hide Name;
    CommonWords();
  }

  lemma CommonTidy()
    ensures forall n | n in COMMON :: TidyRule(COMMON[n])
  {
    hide Name, NeatQuote, Neat;
    FramesWords'();
    CommonWords();
  }

  lemma StartOkWords()
    ensures Name("m11-method-id") && Name("m11-method-properties") && Name("client-properties")
  {
  }

  lemma StartOkWords'()
    ensures Name("client-properties-payload") && Name("product-value") && Name("version-value")
  {
  }

  lemma StartOkWords''()
    ensures Name("platform-value") && Name("mechanism") && Name("response") && Name("locale")
  {
  }

  lemma StartOkWords'''()
    ensures Name("client-properties-length") && Name("message-length")
  {
  }

  lemma StartOkQuotes()
    ensures NeatQuote("product") && NeatQuote("version") && NeatQuote("platform")
  {
  }

  lemma StartOkNamed()
    ensures forall n | n in START_OK :: Name(n) || n == "; client-properties-payload"
  {
    hide Name;
    StartOkWords();
    StartOkWords'();
    StartOkWords''();
  }

  lemma CommentedPayloadTidy()
    ensures TidyRule(START_OK["; client-properties-payload"])
  {
    hide Name, NeatQuote, Neat;
    StartOkWords'();
    StartOkWords''();
    StartOkQuotes();
  }

  lemma StartOkTidy()
    ensures forall n | n in START_OK :: TidyRule(START_OK[n])
  {
    hide Name, NeatQuote, Neat;
    StartOkWords();
    StartOkWords''();
    StartOkWords'''();
    StartOkWords'();
    FieldsWords'();
    PlainWords();
    CommentedPayloadTidy();
  }

  lemma TuneOkWords()
    ensures Name("m31-method-id") && Name("m31-method-properties") && Name("channel-max")
    ensures Name("frame-max")
  {
  }

  lemma TuneOkWords'()
    ensures Name("heartbeat-time")
  {
  }

  lemma TuneOkNamed()
    ensures forall n | n in TUNE_OK :: Name(n)
  {
    hide Name;
    TuneOkWords();
    TuneOkWords'();
  }

  lemma TuneOkTidy()
    ensures forall n | n in TUNE_OK :: TidyRule(TUNE_OK[n])
  {
    hide Name, NeatQuote, Neat;
    TuneOkWords();
    TuneOkWords'();
    ScalarsWords();
  }

  lemma OpenCloseWords()
    ensures Name("m40-method-id") && Name("m40-method-properties") && Name("m50-method-id")
  {
  }

  lemma OpenCloseWords'()
    ensures Name("m50-method-properties") && Name("m50-class-id-val") && Name("m50-method-id-val")
  {
  }

  lemma OpenCloseWords''()
    ensures Name("reply-code") && Name("reply-text") && Name("m51-method-id") && Name("virtual-host")
    ensures Name("shortstr")
  {
  }

  lemma OpenCloseNamed()
    ensures forall n | n in OPEN_CLOSE :: Name(n)
  {
    hide Name;
    OpenCloseWords();
    OpenCloseWords'();
    OpenCloseWords''();
  }

  lemma OpenCloseTidy()
    ensures forall n | n in OPEN_CLOSE :: TidyRule(OPEN_CLOSE[n])
  {
    hide Name, NeatQuote, Neat;
    OpenCloseWords''();
    OpenCloseWords'();
    CommonWords();
    FramesWords'();
    ScalarsWords();
  }

  lemma PlainWords()
    ensures Name("message") && Name("authcid") && Name("authzid") && Name("passwd") && Name("UTF8NUL")
    ensures Name("SAFE") && Name("UTF1") && Name("UTF2") && Name("UTF3") && Name("UTF4") && Name("UTF0")
  {
  }

  lemma PlainNamed()
    ensures forall n | n in PLAIN :: Name(n)
  {
    hide Name;
    PlainWords();
  }

  lemma Utf3Tidy()
    ensures TidyRule(PLAIN["UTF3"])
  {
    hide Name, NeatQuote, Neat;
    PlainWords();
  }

  lemma Utf4Tidy()
    ensures TidyRule(PLAIN["UTF4"])
  {
    hide Name, NeatQuote, Neat;
    PlainWords();
  }

  lemma PlainOthersTidy()
    ensures forall n | n in PLAIN && n != "UTF3" && n != "UTF4" :: TidyRule(PLAIN[n])
  {
    hide Name, NeatQuote, Neat;
    PlainWords();
  }

  lemma PlainTidy()
    ensures forall n | n in PLAIN :: TidyRule(PLAIN[n])
  {
    hide PLAIN, TidyRule;
    Utf3Tidy();
    Utf4Tidy();
    PlainOthersTidy();
  }

  lemma FramesWords()
    ensures Name("amqp") && Name("protocol-header") && Name("literal-AMQP") && Name("protocol-id")
    ensures Name("protocol-version")
  {
  }

  lemma FramesWords'()
    ensures Name("method-frame") && Name("frame-properties") && Name("payload-size") && Name("method-id")
  {
  }

  lemma FramesWords''()
    ensures Name("amqp-field")
  {
  }

  lemma FramesNamed()
    ensures forall n | n in FRAMES :: Name(n)
  {
    hide Name;
    FramesWords();
    CommonWords();
    FramesWords'();
    FramesWords''();
  }

  lemma FramesTidy()
    ensures forall n | n in FRAMES :: TidyRule(FRAMES[n])
  {
    hide Name, NeatQuote, Neat;
    FramesWords();
    FramesWords'();
    CommonWords();
    ContentWords();
    FieldsWords();
    FramesWords''();
    CoreWords();
    FieldsWords'();
  }

  lemma FieldsWords()
    ensures Name("short-uint") && Name("long-uint") && Name("long-long-uint") && Name("short-string")
    ensures Name("string-char")
  {
  }

  lemma FieldsWords'()
    ensures Name("long-string") && Name("timestamp") && Name("field-table") && Name("field-value-pair")
    ensures Name("field-name")
  {
  }

  lemma FieldsWords''()
    ensures Name("field-value")
  {
  }

  lemma FieldsNamed()
    ensures forall n | n in FIELDS :: Name(n)
  {
    hide Name;
    FieldsWords();
    FieldsWords'();
    FieldsWords''();
  }

  lemma FieldValueFirst()
    ensures |FIELDS["field-value"]| == 18
    ensures forall i | 0 <= i < 9 :: TidyAll(FIELDS["field-value"][i])
  {
    hide Name, NeatQuote, Neat, Tidy;
    NamedTidy();
    SymbolTidy();
    SpelledTidy();
    ScalarsWords();
    FieldsWords();
    ScalarsWords'();
    FieldsWords'();
  }

  lemma FieldValueSecond()
    ensures |FIELDS["field-value"]| == 18
    ensures forall i | 9 <= i < 18 :: TidyAll(FIELDS["field-value"][i])
  {
    hide Name, NeatQuote, Neat, Tidy;
    NamedTidy();
    SymbolTidy();
    SpelledTidy();
    ScalarsWords();
    FieldsWords();
    ScalarsWords'();
    FieldsWords'();
  }

  lemma FieldValueTidy()
    ensures TidyRule(FIELDS["field-value"])
  {
    hide FIELDS, TidyAll;
    FieldValueFirst();
    FieldValueSecond();
  }

  lemma FieldsOthersTidy()
    ensures forall n | n in FIELDS && n != "field-value" :: TidyRule(FIELDS[n])
  {
    hide Name, NeatQuote, Neat;
    CoreWords();
    FieldsWords();
    FieldsWords'();
    FieldsWords''();
  }

  lemma FieldsTidy()
    ensures forall n | n in FIELDS :: TidyRule(FIELDS[n])
  {
    hide FIELDS, TidyRule;
    FieldValueTidy();
    FieldsOthersTidy();
  }

  lemma ScalarsWords()
    ensures Name("boolean") && Name("short-short-int") && Name("short-short-uint") && Name("short-int")
    ensures Name("long-int")
  {
  }

  lemma ScalarsWords'()
    ensures Name("long-long-int") && Name("float") && Name("double") && Name("decimal-value")
    ensures Name("scale") && Name("field-array")
  {
  }

  lemma ScalarsNamed()
    ensures forall n | n in SCALARS :: Name(n)
  {
    hide Name;
    ScalarsWords();
    ScalarsWords'();
  }

  lemma ScalarsTidy()
    ensures forall n | n in SCALARS :: TidyRule(SCALARS[n])
  {
    hide Name, NeatQuote, Neat;
    CoreWords();
    ScalarsWords'();
    FieldsWords();
    ScalarsWords();
    FieldsWords''();
  }

  lemma ContentWords()
    ensures Name("frame-end") && Name("content") && Name("content-header") && Name("header-payload")
    ensures Name("content-class")
  {
  }

  lemma ContentWords'()
    ensures Name("content-weight") && Name("content-body-size") && Name("property-flags")
    ensures Name("property-list")
  {
  }

  lemma ContentWords''()
    ensures Name("content-body") && Name("body-payload") && Name("heartbeat")
  {
  }

  lemma ContentNamed()
    ensures forall n | n in CONTENT :: Name(n)
  {
    hide Name;
    ContentWords();
    ContentWords'();
    ContentWords''();
  }

  lemma PropertyFlagsTidy()
    ensures TidyRule(CONTENT["property-flags"])
  {
    hide Name, NeatQuote, Neat;
    ContentWords();
    ContentWords'();
    CoreWords();
  }

  lemma ContentOthersTidy()
    ensures forall n | n in CONTENT && n != "property-flags" :: TidyRule(CONTENT[n])
  {
    hide Name, NeatQuote, Neat;
    ContentWords();
    ContentWords''();
    FramesWords'();
    ContentWords'();
    CoreWords();
    FieldsWords();
    FramesWords''();
  }

  lemma ContentTidy()
    ensures forall n | n in CONTENT :: TidyRule(CONTENT[n])
  {
    hide CONTENT, TidyRule;
    PropertyFlagsTidy();
    ContentOthersTidy();
  }

  lemma CoreWords()
    ensures Name("ALPHA") && Name("BIT") && Name("CHAR") && Name("DIGIT") && Name("DQUOTE")
    ensures Name("HEXDIG") && Name("OCTET")
  {
  }

  lemma CoreQuotes()
    ensures NeatQuote("0") && NeatQuote("1") && NeatQuote("A") && NeatQuote("B") && NeatQuote("C")
    ensures NeatQuote("D") && NeatQuote("E") && NeatQuote("F")
  {
  }

  lemma CoreNamed()
    ensures forall n | n in CORE :: Name(n)
  {
    hide Name;
    CoreWords();
  }

  lemma CoreTidy()
    ensures forall n | n in CORE :: TidyRule(CORE[n])
  {
    hide Name, NeatQuote, Neat;
    CoreWords();
    CoreQuotes();
  }

  /** Rules that are tidy under proper keys. */
  lemma ProperlyNamed(rules: Rules)
    requires forall n | n in rules :: TidyRule(rules[n]) && (Name(n) || n == "; client-properties-payload")
    ensures TidyRules(rules)
  {
    hide Name, Key, TidyRule;
    NamesAreKeys();
    CommentKey();
  }

  lemma ConnectionTidy()
    ensures TidyRules(CONNECTION)
  {
    hide TidyRules, Name, TidyRule, LIFE_CYCLE, COMMON, START_OK, TUNE_OK, OPEN_CLOSE, PLAIN;
    LifeCycleTidy();
    LifeCycleNamed();
    CommonTidy();
    CommonNamed();
    StartOkTidy();
    StartOkNamed();
    TuneOkTidy();
    TuneOkNamed();
    OpenCloseTidy();
    OpenCloseNamed();
    PlainTidy();
    PlainNamed();
    ProperlyNamed(CONNECTION);
  }

  lemma ProtocolTidy()
    ensures TidyRules(PROTOCOL)
  {
    hide TidyRules, Name, TidyRule, CONTENT, CORE, FIELDS, SCALARS, FRAMES;
    ContentTidy();
    ContentNamed();
    CoreTidy();
    CoreNamed();
    FieldsTidy();
    FieldsNamed();
    ScalarsTidy();
    ScalarsNamed();
    FramesTidy();
    FramesNamed();
    ProperlyNamed(PROTOCOL);
  }
}
