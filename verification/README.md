# AMQPGRAM: a verified model

AMQPGRAM fuzzes AMQP 0-9-1 brokers. It turns ABNF grammar files (RFC 5234) into packets, rewrites that
grammar at run time so that lengths and ids come out right - or, as its rule chaos level rises, so that
they do not - and walks a broker through the connection life cycle with two threads that share a
one-packet mailbox. This project models that program in Dafny and proves what its parts promise each
other.

## The parts

- `Octets`, `CText`: the integer codecs of fuzzer/utils.c in place on byte arrays, and the C string
  calls the rest leans on.
- `Abnf`, `AbnfPrint`: what one blank-free piece of rule text means, and the notation it is written in.
- `Language`: environments with late-bound lookup and the languages their rules denote, as the least
  solution of the equations the rule bodies spell out.
- `Decoder`, `DecoderLoops`: decode_rule as a function of the numbers rand() will return, proved sound
  and complete against `Language`; and the loops over growing buffers, proved against that function.
- `Termination`, `Strata`: when decoding ends, how many numbers it may draw, how long its results are.
- `Override`, `Assembly`: the override layer, and what any sequence of overrides and freezes keeps.
- `AmqpRules`, `AmqpGrammar`, `AmqpBounds`, `AmqpMeaning`: the concrete grammar files, rule by rule; what
  they define; their strata and length bounds; and the shapes their rules stay in.
- `PlainText`: PLAIN messages (section 2 of RFC 4616) over UTF-8 (RFC 3629).
- `Builders`, `Levels`, `Packets`, `OrderlyPackets`, `Connection`: the five Connection packets - at every
  rule chaos level, from one level to the next, octet by octet at level 0, and as the code that builds them.
- `Frames`: building, breaking and appending frames (section 4.2.3 of AMQP 0-9-1).
- `GrammarText`: reading grammar files.
- `Session`, `Mailbox`, `Traces`, `Walk`, `Wire`, `Threads`: the packet deciders, the two threads as a
  transition system over every interleaving, what orderly runs send, as packets and as octets, that the
  whole life cycle can be walked, and the code the threads run on the variables they share.
- `Driver`: the outer fuzzing loop.

Randomness is a stream of numbers fixed in advance, so every statement is about every stream. A run that
would need more numbers than the stream holds says so (`OutOfNumbers`) instead of blocking; the stack is
a number of frames decode_rule may still push. The grammar files are given as lists of pieces whose
printed form is the text of their lines; `GrammarText.FilesGiveBase` takes those lines to the environment
every packet theorem is about, and `AbnfPrint.AlternativeReads` takes each alternative to its elements.

## Where the code and its documentation disagree

- The README announces that packet chaos 1 may already send packets out of order. `roll >= PACKET_CHAOS`
  with a roll of 1 to 4 makes level 1 fully ordered (`Session.ChaosShare`).
- A comment gives 4096 as the least frame-max accepted; the loop accepts 4095
  (`Connection.LeastFrameMaxExample`, and when it does not: `Connection.DocumentedLeast`).
- Capital letters in quoted text are meant to become lower case; the code adds decimal 20, not 32
  (`Abnf.HexDigitExample`, and when it does: `Abnf.LowerCaseExactly`).
- Ranges exclude their upper bound (`Abnf.DrawAllowed` with `Abnf.DrawnInFull`: the numbers drawn are
  exactly those below it), so OCTET never gives FF (`Levels.SmallOctet`); and a bound whose leading octet
  is 1 loses an octet (`AbnfPrint.RangeCutExample`, and when none is lost: `Abnf.RangeExact`).
- `char_in_int` sign-extends its low half, so sizes with bit 15 set are misread (`Octets.IntRoundTrip`,
  `Frames.FrameRoundTrip`).

## Model

| member | source | states |
|---|---|---|
| Language.EnvironmentLookup | grammar/grammar-parser.c:152-163 | the walk along the environments returns the entry of the innermost table that has the name, and nothing only when none has |
| Language.Unfold | grammar/packet-generator.c:316-363 | the languages solve the equations the rules spell out: a string is in a rule's language exactly when one unfolding of the rule's body derives it from the whole languages of the names it mentions, looked up late; an undefined name derives the empty string only |
| Language.LeastSolution | grammar/packet-generator.c:316-363 | and they are the least solution: any meaning closed under unfolding, on names no rule leads out of, contains them |
| Language.Induct | grammar/packet-generator.c:316-363 | induction over derivations: any property of octet strings kept by every unfolding holds at every nesting |
| Language.Frame | grammar/grammar-parser.c:152-163 | two environments that agree on a set of names closed under mentioning give those names the same languages, although every lookup is late |
| Decoder.RuleSound | grammar/packet-generator.c:316-363 | soundness for every environment, rule, stream of rand() results and stack: octets returned are derivable, with no deeper nesting than the stack used |
| Decoder.RuleTape | grammar/packet-generator.c:316-363 | completeness: every derivable octet string is returned on some stream of numbers, whatever follows that stream |
| Decoder.GeneratedIffDerivable | grammar/packet-generator.c:176-363 | what decode_rule can generate with a given stack is exactly what is derivable with that nesting |
| Decoder.ElementsSound | grammar/packet-generator.c:176-215 | concatenation: the octets of an alternative are those of its elements, in order |
| Decoder.TimesSound | grammar/packet-generator.c:217-295 | a repetition yields as many copies as were rolled, each derived separately |
| Decoder.HeadsSound | fuzzer/Connection.c:19-44 | the string generators produce as many octets as their length field says, each the first octet of some decoding of OCTET |
| Decoder.CopiesRolled | grammar/packet-generator.c:217-295 | how many copies a roll stands for: C's remainder, on top of the lower bound; no room between the bounds divides by zero |
| Decoder.RangeRolls | grammar/packet-generator.c:125-149 | which number a roll stands for in a range, in either order of its bounds, and in which octets |
| Decoder.GeneratorRolls | fuzzer/Connection.c:19-44 | a string generator makes as many octets as the remainder of its roll by 16, and its length field says so |
| Termination.RuleEnds | grammar/packet-generator.c:176-363 | if a rank drops from every rule to the rules it mentions, more stack frames than the rank are always enough; on text without null tokens or zero divisors decoding never crashes, and it returns as soon as the stream holds a number of results computed from the rules alone |
| Termination.SelfMentionUnranked | abnf/grammar-spec:44 | a rule that mentions itself has no rank |
| Termination.SelfMentionOverflows | grammar/packet-generator.c:316-363 | and one that is nothing but itself outgrows every stack on every stream |
| DecoderLoops.ParseElements | grammar/packet-generator.c:176-215 | the strtok loop over a buffer regrown to twice the total returns exactly the concatenation that the generator semantics gives, in the same order of rand() calls, and never writes outside the buffer |
| DecoderLoops.AppendRegrowing | grammar/packet-generator.c:199-206 | whenever the total reaches the buffer's size it is regrown before the copy, and what was there stays |
| DecoderLoops.ParseRepetition | grammar/packet-generator.c:217-295 | a repetition draws its count and then copies, as the semantics says, including both failing cases; of fixed octets it makes min plus the remainder of the roll by max - min + 1 copies, with bounds in the wrong order min plus that by min - max - 1 |
| DecoderLoops.RepeatElement | grammar/packet-generator.c:269-294 | the loop over the copies ends with exactly their concatenation |
| DecoderLoops.AppendDoubling | grammar/packet-generator.c:281-288 | the doubling loop ends, leaves room to spare, and loses nothing |
| DecoderLoops.ReadBounds | grammar/packet-generator.c:226-256 | the two digit loops read the repetition bounds and leave the repeated element |
| DecoderLoops.DecodeTerminalSymbol | grammar/packet-generator.c:62-83 | the text of a symbol is read into one octet per dot and one more, each what strtol makes of its piece in the base of the letter (base 0 for an unknown letter), and fails exactly when strtok has no piece left for it |
| DecoderLoops.ValueOfOctets | grammar/packet-generator.c:97-101 | the sum loop over growing powers of 256 computes the big-endian value |
| DecoderLoops.WriteNumber | grammar/packet-generator.c:127-142 | the length loop and the backwards fill loop write the big-endian digits that fit the upper bound's width |
| DecoderLoops.DecodeTerminalRange | grammar/packet-generator.c:85-149 | the text is cut at its dash and the second half gets percent sign and base letter written in front of it in place; the range between the two values decodes to one rolled number, or crashes when they are equal or a half is missing |
| DecoderLoops.GenerateInRange | grammar/packet-generator.c:125-142 | the roll, reduced and shifted, written in the width of the upper bound |
| DecoderLoops.DecodeTerminal | grammar/packet-generator.c:151-159 | one dash makes a range, anything else a symbol, and both mean what the parsed element means |
| Abnf.TerminalKinds | grammar/packet-generator.c:62-159 | a terminal with one dash is a range or broken; any other is a symbol, broken exactly when a dot lacks a token of its own |
| Abnf.RangeKinds | grammar/packet-generator.c:85-123 | a range is broken exactly by a dash too early or at the end, a missing base letter, a broken half, or a bound past the largest int |
| DecoderLoops.DecodeQuoted | grammar/packet-generator.c:161-174 | the in-place loop yields the text up to the next quote, capitals moved up |
| DecoderLoops.ParseElementText | grammar/packet-generator.c:297-314 | dispatch on the first character agrees with the parsed element |
| DecoderLoops.SelectAlternativeRule | grammar/packet-generator.c:53-60 | the alternative is the one rolled, by remainder |
| DecoderLoops.DecodeNamedRule | grammar/packet-generator.c:316-363 | decode_rule by entry type agrees with the generator semantics |
| DecoderLoops.RunGenerator | fuzzer/Connection.c:19-44 | the two string generators write a length and that many octets |
| Abnf.SymbolRoundTrip | grammar/packet-generator.c:62-83 | decoding inverts printing any non-empty octet string in dotted base 2, 10 or 16 |
| Abnf.StrToLNumeral | grammar/packet-generator.c:62-83 | on a numeral of base 2, 10 or 16 strtol returns its positional value, saturating at the largest long |
| Abnf.StrToLReads | grammar/packet-generator.c:62-83 | around the digits strtol reads blanks and a sign and leaves whatever follows; the result is the signed value as a long holds it, 0 without digits |
| Abnf.RangeExact | grammar/packet-generator.c:125-142 | a range below its upper bound writes every number it can draw in full exactly when the upper bound's leading octet is at least 2 or the bound is a power of 256 |
| Abnf.WidthExact | grammar/packet-generator.c:127-130 | the digit loop drops an octet exactly when the bound's leading octet is 1 |
| AbnfPrint.RangeCutExample | grammar/packet-generator.c:125-142 | a range 256 to 511 is written in one octet |
| Abnf.LowerCaseExactly | grammar/packet-generator.c:161-174 | quoted text decodes to its lower-case form exactly when it holds no capital letter |
| Abnf.HexDigitExample | abnf/grammar-abnf:6 | the alternative "A" of HEXDIG decodes to 55, the letter U |
| AbnfPrint.PrintParse | grammar/packet-generator.c:217-314 | every piece of ABNF notation the files use - symbols, spelled or in their shortest form, ranges, names, quotes, brackets, all five repetition forms - is read back as the element it stands for |
| AbnfPrint.AlternativeReads | grammar/packet-generator.c:176-215 | an alternative printed with single blanks is read as its elements in order |
| AbnfPrint.AlternativeClean | grammar/grammar-parser.c:209-280 | an alternative whose names, quotes and brackets hold no blank, slash, semicolon or equals sign prints as text that can stand between the delimiters of a line |
| CText.TokensCount | grammar/packet-generator.c:180-196 | the counting loops see every token strtok can deliver |
| CText.TokensOfJoin | grammar/packet-generator.c:183-210 | tokenising joined words gives the words back |
| CText.TokensExactly | grammar/packet-generator.c:183-210 | the tokens of any text: none if it is all delimiters, otherwise its first stretch of other characters and the tokens of the rest |
| Override.OverwriteRuleWithChaos | fuzzer/Grammar_Interface.c:62-130 | the table after the call, at every level: the ordered rule alone, untouched, or both under fresh names with a rule array filled by two loops |
| Override.Grammar.Insert | grammar/grammar-parser.c:165-167 | an inserted entry answers for its key in front of any environment, an inserted null leaves the key to what is behind, no other name is touched, and the result says whether the key was new, keys that hold null not being new |
| Override.OverrideLanguage | fuzzer/Grammar_Interface.c:77-128 | the overridden rule's language is the ordered body's at level 0, the old rule's at level 4, and their union in between |
| Override.OverrideFrame | fuzzer/Grammar_Interface.c:77-128 | rules that cannot reach the overridden name keep their language |
| Override.ChaosShare | README.md:34 | the raw rule's share of the alternatives is level quarters, the ordered rule's the rest |
| Override.RollDecides | fuzzer/Grammar_Interface.c:77-128 | which rolls take the raw rule: remainders by 4 below the level at levels 1 and 3, odd rolls at level 2 |
| Override.OverrideRanked | fuzzer/Grammar_Interface.c:77-128 | a first override with a lower-ranked body keeps the environment stratified at every level |
| Override.OverrideClosed | fuzzer/Grammar_Interface.c:77-128 | a first override keeps every property closed under unfolding |
| Override.SecondOverrideCycles | fuzzer/Grammar_Interface.c:77-128 | overriding the same rule twice at levels 1 to 3 makes the grammar cyclic, so no rank exists |
| Assembly.OpsHold | fuzzer/Grammar_Interface.c:62-153 | any list of first overrides and freezes, on any stream, ends in an environment as well-ranked, crash-free and closed as the one it started from, having drawn no more numbers than a budget computed from the rules before the run; or it asks for more, and then the stream was shorter than that budget |
| Assembly.BudgetAlike | fuzzer/Grammar_Interface.c:62-153 | tables that differ only in the octets their frozen entries hold have the same budget, so it is known before the run |
| AmqpBounds.BaseStratified | abnf/grammar-connection:7-65 | at every level the environment of the builders is stratified with length bounds for 49 rules; six of them are undefined and empty |
| Strata.StratifiedGood | grammar/packet-generator.c:176-363 | a stratified, bounded rule set is ranked, crash-free, and decodes within its bounds |
| AmqpMeaning.BaseGood | abnf/grammar-connection:7-65 | every unfolding of these rules stays inside the frame shape, the UTF-8 syntax, the credential and the length bounds stated for it |
| AmqpMeaning.Utf3Means | abnf/grammar-connection:63 | the three-octet alternatives give well-formed UTF-8 characters other than NUL |
| AmqpMeaning.MethodFrameShape | abnf/grammar-spec:7-10 | a method frame is 01 00 00, four octets, a payload of class 10, CE |
| PlainText.Utf8CharsAreScalars | abnf/grammar-connection:58-65 | the UTF-8 syntax of section 4 of RFC 3629 describes exactly the encodings of scalar values |
| PlainText.PlainMessageSplits | abnf/grammar-connection:52-56 | splitting a PLAIN message at NUL (section 2 of RFC 4616) gives an empty authorization identity and two well-formed, NUL-free credentials of 1 to 64 octets |
| PlainText.MessageSplits | abnf/grammar-connection:52 | the split recovers both credentials, so the message determines them |
| Builders.EveryMessage | fuzzer/Connection.c:86-94 | wherever Start-Ok decodes its message, at every level and on every stream, it is such a PLAIN message, and it fails only on streams shorter than a number fixed beforehand |
| Builders.EveryBuilder | fuzzer/Connection.c:65-260 | every builder, at every level and on every stream, with 21 stack frames: 01 00 00, four octets of size, a payload of class 10 and 4 to 156 octets, CE - or, only when the stream is shorter than a number computed from the rules, a request for more; no crash, no runaway recursion |
| Builders.BuilderReturns | fuzzer/Connection.c:65-260 | so for every builder, level and stack of at least 21 frames there is a number of rand() results with which it returns such a frame, whatever the results are |
| Levels.EverySize | fuzzer/Grammar_Interface.c:132-153 | those four size octets are the length of the payload that was frozen (levels 0 to 3) or four octets of the raw rule, each below FF (levels 1 to 4) |
| Levels.StillBuilt | fuzzer/Grammar_Interface.c:77-128 | levels 1, 2 and 3 build the same packets, and everything a builder can make at level 0 or at level 4 it can make there, on some stream of numbers |
| Builders.MethodRanked | fuzzer/Connection.c:65-260 | in every builder's environment "method" has a rank of at most 20, and that environment is reached on every stream of a length fixed beforehand |
| OrderlyPackets.ProtocolUnranked | abnf/grammar-spec:44 | although the protocol grammar itself has none |
| Builders.DecodesMeant | fuzzer/Grammar_Interface.c:132-153 | after any fitting operations every bounded rule decodes within its stated meaning, or the stream was shorter than a number computed from the rules |
| Packets.SealedReadBack | fuzzer/Grammar_Interface.c:132-153 | whatever the payload decodes to (4 to 32767 octets), freezing it at level 0 and decoding "method" gives a frame from which break_packet recovers METHOD, channel 0, its size, its class and method ids and its arguments, ignoring what follows |
| OrderlyPackets.StartOkPacket | fuzzer/Connection.c:65-107 | at level 0 Start-Ok is one fixed packet and draws no number |
| OrderlyPackets.StartOkNested | fuzzer/Connection.c:79-94 | both nested length fields of Start-Ok are exact, and everything lies where its reader looks |
| OrderlyPackets.StartOkReadBack | fuzzer/Connection.c:65-107 | built, sent, broken and split at NUL, Start-Ok yields its two credentials, behind nested lengths of 2 and 18 |
| OrderlyPackets.OpenReadBack | fuzzer/Connection.c:171-197 | Open is read back as method 40 with virtual host "/" |
| OrderlyPackets.CloseReadBack | fuzzer/Connection.c:199-234 | Close is read back as method 50 with reply code 200, text "200" and zero ids |
| OrderlyPackets.CloseOkReadBack | fuzzer/Connection.c:236-260 | Close-Ok is read back as method 51 without arguments |
| OrderlyPackets.TuneOkPacket | fuzzer/Connection.c:109-169 | at level 0 Tune-Ok draws three numbers, whatever the limits: it fails exactly on streams with fewer, and is otherwise one frame in which only the heartbeat delay varies, its octets the last two numbers modulo 255 |
| OrderlyPackets.TuneOkReadBack | fuzzer/Connection.c:109-169 | on every stream with three numbers left, Tune-Ok is built and read back as method 31 with exactly the limits it was given, modulo the width of their fields, and that heartbeat delay |
| OrderlyPackets.HeaderPacket | fuzzer/AMQP.c:211-219 | the protocol header decodes to "AMQP" 0 0 9 1 and is recognised as one |
| Connection.LimitsWithinOffers | fuzzer/Connection.c:123-136 | whatever the peer offers, the announced channel-max is at most the offer as written, and frame-max is 0 or between 4095 and the offer as written; against the offers as the code reads them this holds exactly when they come out non-negative |
| Connection.LeastFrameMax | fuzzer/Connection.c:130-133 | whatever the stream, the loop keeps the documented least of 4096 (or 0) exactly when its bound is at most 4095 either way |
| Connection.DocumentedLeast | fuzzer/Connection.c:123-133 | so Tune-Ok keeps it for exactly those offers which, as read, crash the choice or are, one added, at most 4095 in size |
| Connection.LeastFrameMaxExample | fuzzer/Connection.c:130-133 | on an offer of 8192 a roll of 4095 announces 4095 |
| Connection.TuneCrashes | fuzzer/Connection.c:123-133 | choosing the limits can crash exactly on arguments under six octets and on offers read as -1 |
| Connection.ChosenExactly | fuzzer/Connection.c:123-136 | on an offer that cannot crash it, choosing succeeds exactly on the streams with, after the first number, one whose remainder is 0 or at least 4095; the first such remainder is the frame-max |
| Connection.RemainderExactly | fuzzer/Connection.c:129-133 | a limit is the one number below the size of its bound that differs from the roll by a multiple of it |
| Connection.ResamplingEnds | fuzzer/Connection.c:130-133 | some number of rolls ends the resampling loop on every stream exactly when its bound leaves only 0 to draw |
| Connection.NegotiatedReadBack | fuzzer/Connection.c:109-169 | Tune-Ok is returned at level 0 exactly when limits are chosen and three numbers are left, and then the limits that break_packet reads back are those chosen, and respect the offers |
| Connection.UnaskedReadBack | fuzzer/Connection.c:109-169 | without a Tune to answer, three numbers are enough, and both limits are read back with every bit set |
| Connection.NegotiateLimits | fuzzer/Connection.c:116-136 | the resampling loop computes the limits, and crashes only on an offer of -1 or on arguments too short; channel-max is the remainder of the first roll by its bound, frame-max that of the first later roll whose remainder stops the loop |
| Connection.SetupConnectionEnv | fuzzer/Connection.c:46-61 | both string generators answer for their names - alone at level 0, as the ordered half of a choice with the protocol's rule at levels 1 to 3 - and every other name means what the two loaded grammars say |
| Connection.OverwriteRuleSetLength | fuzzer/Grammar_Interface.c:132-153 | the decoded octets and their length are frozen, each under the override rules of the level |
| Connection.ConnectionStartOk | fuzzer/Connection.c:65-107 | the builder as it runs is its list of operations and a final decoding, and leads to state 1 and a wait |
| Connection.ConnectionTuneOk | fuzzer/Connection.c:109-169 | the same for Tune-Ok, after choosing its limits: state 3, no wait |
| Connection.ConnectionOpen | fuzzer/Connection.c:171-197 | the same for Open: state 4 and a wait |
| Connection.ConnectionClose | fuzzer/Connection.c:199-234 | the same for Close: state 7 and a wait |
| Connection.ConnectionCloseOk | fuzzer/Connection.c:236-260 | the same for Close-Ok: state 7 and a wait |
| Frames.FrameRoundTrip | fuzzer/Packet.c:33-46 | break_packet recovers a frame of type 1 to 4 and ignores what follows it exactly when bit 15 of its payload length is clear |
| Frames.LongFrameExample | fuzzer/Packet.c:184-235 | a frame of 32768 octets is not recovered |
| Frames.BreakPacketOctets | fuzzer/Packet.c:184-235 | the branches and copies of break_packet give the packet the frame theorems speak of, and never read outside the octets received |
| Frames.BreakPacketStrays | fuzzer/Packet.c:184-235 | break_packet leaves its buffer exactly when the frame-end it looks for lies beyond it, or a METHOD frame that ends properly is too short for its ids or wraps around |
| Frames.BreakPacketReads | fuzzer/Packet.c:184-235 | inside its buffer it finds no packet exactly when no frame-end stands where the size says; otherwise type, channel, ids and arguments are those octets of the frame |
| Frames.TakenAgain | fuzzer/AMQP.c:134-151 | the listener takes the frame at the head of its buffer again without polling exactly when the size field is 00 00 FF F9, read as -7, behind a first octet of CE |
| Frames.TakenAgainExample | fuzzer/AMQP.c:134-151 | the octets CE 00 00 00 00 FF F9 make such a frame of type 206, and the count it leaves is 0 |
| Frames.AmqpFrame | fuzzer/Packet.c:33-46 | the frame is type, channel, size, payload and CE, byte for byte |
| Frames.AmqpMethodFrame | fuzzer/Packet.c:49-62 | a method frame's payload is class id, method id and arguments |
| Frames.PacketAppend | fuzzer/Packet.c:144-163 | the result is the two frames one after the other |
| Frames.FullLengthOfFrame | fuzzer/Packet.c:145-146 | the length it computes from a size field is the frame's own |
| Frames.UniqueSplit | fuzzer/Packet.c:144-163 | appended frames split into frames in one way only |
| Octets.ReverseInPlace | fuzzer/utils.c:44-52 | the two-index loop reverses exactly the stretch it is given |
| Octets.ShortInChar | fuzzer/utils.c:55-69 | exactly the two big-endian octets at the index are written, or nothing when they would not fit |
| Octets.IntInChar | fuzzer/utils.c:39-53 | the same for four octets |
| Octets.LongInChar | fuzzer/utils.c:23-37 | the same for eight octets |
| Octets.ShortRoundTrip | fuzzer/utils.c:6-9 | char_in_short reads back what short_in_char wrote |
| Octets.IntRoundTrip | fuzzer/utils.c:11-15 | char_in_int reads back what int_in_char wrote exactly when bit 15 is clear, and 65536 less otherwise |
| Octets.IntBit15Example | fuzzer/utils.c:11-15 | 32768 is read back as -32768 |
| GrammarText.TrimString | grammar/grammar-parser.c:3-24 | trimming in place leaves the trimmed string and its terminator at the front of the buffer, blank strings included |
| GrammarText.TrimIs | grammar/grammar-parser.c:3-24 | what is left is free of blanks at both ends, and only blanks were cut |
| GrammarText.TrimOf | grammar/grammar-parser.c:3-24 | any trimmed text between blanks is recovered |
| GrammarText.ParseValueText | grammar/grammar-parser.c:209-241 | the strtok loop collects the trimmed alternatives, or keeps a lone one as it is |
| GrammarText.ParseLineText | grammar/grammar-parser.c:262-280 | a line becomes a key and an entry, nothing, or a null comparison: nothing exactly when behind its key stand only semicolons or nothing - a blank line, a comment without an equals sign -, the comparison exactly when it is all equals signs or its value all slashes and blanks |
| GrammarText.LineExactly | grammar/grammar-parser.c:262-280 | the same of the parsed line, with the entry that of the trimmed key and value between the delimiters |
| GrammarText.ValueExactly | grammar/grammar-parser.c:209-241 | a value without a slash is kept as it is, one of only slashes has no entry, and any other is the array of its trimmed pieces, were there only one |
| GrammarText.PopulateGrammar | grammar/grammar-parser.c:255-284 | loading inserts the rules of the lines in order, and gets to the end exactly when no line is bad |
| GrammarText.LastRuleStays | grammar/grammar-parser.c:165-167 | a later line for the same key replaces the earlier entry and touches nothing else |
| GrammarText.LineRoundTrip | grammar/grammar-parser.c:209-280 | a rule written on a line, with any blanks and comment around it, is read back as its key and entry: STRING for one alternative, STRING_ARRAY for more |
| GrammarText.LoadedLine | grammar/grammar-parser.c:209-280 | a line that states a tidy rule, in any layout and with any comment, loads as its entry |
| GrammarText.FileLoads | grammar/grammar-parser.c:255-284 | a file whose lines state tidy rules in any order, between any lines without a value, loads as exactly their table |
| GrammarText.ConnectionLoads | abnf/grammar-connection:1-66 | so abnf/grammar-connection loads as the connection table used here |
| GrammarText.ProtocolLoads | grammar/packet-generator.c:365-369 | and grammar_init, reading abnf/grammar-spec and then abnf/grammar-abnf, as the protocol table |
| GrammarText.FilesGiveBase | fuzzer/Connection.c:46-61 | from the lines of the three files to the environment of the builders |
| GrammarText.Written | abnf/grammar-spec:1-48 | every tidy rule set has such a file |
| Session.ConnectionPacketDecider | fuzzer/Connection.c:262-316 | a null pointer is followed exactly on missing method data outside states 3 and 5; each answer is given to its question and to nothing else, Open and Close exactly in states 3 and 5; a packet sent settles the next state; Open-Ok and Secure, and nothing else, lead to state 5 with nothing awaited, Close-Ok to the end, unknown methods to state 0 and other classes to state 7 with the wait as it was |
| Session.OrderedPacketDecider | fuzzer/AMQP.c:249-317 | the same over whole packets: from a sound state no crash and a sound state again, the header exactly in the initial state, answers exactly to their questions; where nothing is sent the next state and wait are settled by the packet |
| Session.ChaoticPacketDecider | fuzzer/AMQP.c:221-247 | always a packet, leaving the state that packet leaves in orderly runs, and a sound one; which it is the remainder of the roll by 6 decides, side by side |
| Session.ChaoticReaches | fuzzer/AMQP.c:221-247 | every packet there is comes up on exactly one side of the die |
| Session.PacketDecider | fuzzer/AMQP.c:319-359 | whatever the dice, a sound state with a packet it may decide on neither crashes nor ends unsound; remainders by 4 decide between order and chaos, and with them what is sent; a delivered packet leaves the state it stands for, an undelivered one closes; nothing sent leaves the state its packet leads to |
| Session.ChaosShare | fuzzer/AMQP.c:325-326 | every roll is ordered exactly at levels 0 and 1, and the share of chaotic rolls is one quarter less per level than documented |
| Session.DecisionSound | fuzzer/AMQP.c:319-359 | from a sound state every decision is defined and leads to a sound state |
| Session.MissingPacketCrashes | fuzzer/AMQP.c:276-284 | a missing packet would be followed through a null pointer exactly in states 2 and 6 |
| Mailbox.RunKeeps | fuzzer/AMQP.c:380-408 | the invariant of mutex, mailbox, wakeups, states and running flag holds along every interleaving, with any receive buffer, any dice, any failed sends and any spurious wakeups, up to a move that leaves the program's bounds |
| Mailbox.StraysExactly | fuzzer/AMQP.c:117-159 | a run leaves those bounds exactly when its last move is a buffer that break_packet overruns, a frame for a channel other than 0, or a Tune-Ok for an offer that crashes its builder; no earlier move is one |
| Mailbox.ReachableStates | fuzzer/AMQP.c:249-359 | no run follows a null pointer in a decider; only seven states are reached, waiting in those a request enters; a missing packet is decided on only in states 0, 3 and 5 |
| Mailbox.ReachableAccount | fuzzer/AMQP.c:138-151 | every deposit is consumed, overwritten or still in the slot, none twice, and in order |
| Mailbox.DepositsAreHeard | fuzzer/AMQP.c:137-151 | the deposits, and a packet the listener has in hand, are exactly the packets received, in order |
| Mailbox.NeverStuck | fuzzer/AMQP.c:117-187 | no deadlock: unless the listener waits for the socket or has gone and the channel sleeps or has ended, one of them can take a step of its own |
| Mailbox.GoneCloses | fuzzer/AMQP.c:344-356 | a packet is delivered exactly when the send goes well and the listener is still there; otherwise it closes the connection |
| Mailbox.ReachableRunning | fuzzer/AMQP.c:185 | the running flag is cleared exactly when the listener has gone |
| Mailbox.OwedSignalComes | fuzzer/AMQP.c:380-391 | a channel asleep over a full slot is woken by the steps the listener still has to take |
| Traces.TakenInOrder | fuzzer/AMQP.c:380-408 | the packets decided on are an in-order subsequence of those deposited |
| Traces.HeaderFirst | fuzzer/AMQP.c:268-271 | in orderly runs the first thing sent is the protocol header |
| Traces.AnswersMatch | fuzzer/Connection.c:289-307 | Start-Ok, Tune-Ok and Close-Ok are sent in the step that takes Start, Tune and Close, and in no other; each such question that does not find the connection in its initial state is answered |
| Traces.OpenFollowsTuneOk | fuzzer/AMQP.c:276-284 | each Open follows a delivered Tune-Ok, with the connection tuned in between |
| Traces.CloseFollowsOpenOk | fuzzer/Connection.c:273-276 | each Close follows a received Open-Ok or Secure, with the connection up in between |
| Traces.ClosedOnlyBy | fuzzer/AMQP.c:335-357 | the connection closes exactly on Close-Ok or on a packet that could not be delivered, and decides nothing afterwards |
| Traces.StatesFollow | fuzzer/AMQP.c:249-359 | in orderly runs packet and state settle each step: what is sent, and the state after it, each event starting where the last one ended |
| Traces.OpenOkConnects | fuzzer/Connection.c:298-303 | Open-Ok, or Secure, leads to the connected state from every state but the initial one |
| Walk.LifeCycle | fuzzer/AMQP.c:375-410 | a peer that sends Start, Tune, Open-Ok and Close-Ok with any arguments but a crashing offer can be walked through the whole life cycle at every packet chaos level: header, Start-Ok, Tune-Ok, Open, Close, closed - whether its frames come early or find the channel asleep |
| Walk.AskedAsleep | fuzzer/AMQP.c:380-408 | a channel that has fallen asleep for want of a packet is woken by its deposit, decides on it, and takes over the decision |
| Walk.ClosesUnsent | fuzzer/AMQP.c:175-187 | once the listener has left, the first packet the channel would send closes the connection unsent |
| Wire.SentReadBack | fuzzer/AMQP.c:211-317 | at rule chaos level 0 each packet the deciders name comes out of its builder, on any stream but for the negotiation of Tune-Ok, and out of break_packet under that name, whatever follows it |
| Wire.RepliesMatch | fuzzer/AMQP.c:249-359 | in every orderly run, whatever the stream, the octets sent are read back as the reply their question calls for: 11 to 10, 31 to 30 with limits no larger than those the Tune wrote, 51 to 50, the header at first, and 40 or 50 unasked exactly when tuned or connected |
| Threads.Shared.Deposit | fuzzer/AMQP.c:138-150 | the listener's locked section is one step of the model: the slot holds the new packet |
| Threads.Shared.ClearIsRunning | fuzzer/AMQP.c:185 | the listener's last statement is the step of the model that clears the running flag |
| Threads.Shared.Turn | fuzzer/AMQP.c:380-404 | the channel's locked section sleeps on an empty slot while a response is expected, and otherwise is a look and a decision of the model, unless its answer's builder crashes first |
| Driver.CheckStrat | fuzzer/AMQP.c:495-513 | polling returns the first count that reaches the target or finds the listener stopped |
| Driver.DeltaExact | fuzzer/main.c:116 | the two truncations to int leave delta exact if and only if the count advanced by less than 2^31 |
| Driver.FuzzWithStrategy | fuzzer/main.c:98-138 | under strategy n the loop ends with the first round whose difference as an int is negative or beyond twice the goal, that brings no packet, or that reaches the goal, for the first of these reasons, and prints the sum of the differences; that is the count exactly as long as no round advances it by 2^31, and then the body runs at most stratval + 1 times and the round is the first to leap beyond twice the goal, bring nothing or reach it by the count itself |
| Driver.WrappingExample | fuzzer/main.c:111-138 | rounds of 2^32 packets each go on for ever at a progress of 0 |

## Left out

- Sockets, poll, send and recv, syslog and debug printing: a received buffer is any octets, a send
  succeeds or fails. Because `n = recv(...) > 0` makes n 1, each receive delivers at most the frame at the
  head of its buffer - once, or again and again if it looks like `Frames.TakenAgainExample`; in `Mailbox`
  that is the same octets received again.
- Channels other than 0, thread creation, cancellation and joining: only channel 0 is ever created.
- The listener's bundle loop and wait_response as frame splitters: they step by size + 7 without moving
  through the buffer. Splitting is proved of the frame functions instead.
- What happens once break_packet has left the receive buffer or a builder has crashed: such a move ends
  the run (`Mailbox.StraysExactly`). AMQP_method_frame copies four octets more than its arguments hold;
  the model copies the arguments.
- Range bounds past the largest int, and integer overflow in repetition counts. A lone percent sign and a
  range without a base letter, where the source copies past its buffers, count as crashes.
- Allocation, freeing, null results of calloc, and the allocation sizes of array-of-pointer buffers.
- Probability: only which choices are possible, apart from the share of alternatives and rolls.
- That rand() ever gives a number the resampling loop of connection_tune_ok stops at
  (`Connection.ChosenExactly`, `Connection.ResamplingEnds`). Its overflow at the largest int is taken to wrap.
- What `Session` and `Mailbox` send is named; `Wire` spells it out for rule chaos level 0, and at the other
  levels the octets are any the builders return.
- Strategy t, seeding, option parsing, and the packet counter's own mutex.
- Grammar lines longer than the 2047 characters fgets delivers at once.
- char_in_long, AMQP_header_frame, AMQP_body_frame, extract_*, verify_length, copy_grammar and the old
  override function: unused.
- Frames.PacketAppend: asks that both size fields keep inside their buffers, since the source copies
  whatever lies behind them.
