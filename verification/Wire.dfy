/** What goes over the wire at rule chaos level 0: the deciders' named packets as the octets their
    builders return, and as a peer with the same break_packet reads them. */
module Wire {
  import opened Octets
  import opened CText
  import opened Decoder
  import opened Assembly
  import opened AmqpRules
  import opened AmqpGrammar
  import opened Builders
  import opened Frames
  import opened OrderlyPackets
  import opened Connection
  import opened Session
  import opened Mailbox
  import opened Traces

  /** What the builder of a sent packet returns. */
  function Built(sent: Sent, tape: Tape, fuel: nat): Outcome
    requires sent != Nothing
  {
    match sent
    case SentHeader => DecodeRule([Load(PROTOCOL)], "amqp", tape, fuel)
    case SentStartOk => Assemble(StartOkOps(), 0, BaseChain(0), tape, fuel)
    case SentTuneOk(tune) => AssembleTuneOk(tune, 0, BaseChain(0), tape, fuel)
    case SentOpen => Assemble(OpenOps(), 0, BaseChain(0), tape, fuel)
    case SentClose => Assemble(CloseOps(), 0, BaseChain(0), tape, fuel)
    case SentCloseOk => Assemble(CloseOkOps(), 0, BaseChain(0), tape, fuel)
  }

  /** The packet a name stands for. */
  predicate ReadAs(sent: Sent, p: Option<Packet>)
    requires sent != Nothing
  {
    match sent
    case SentHeader => IsHeader(p)
    case SentStartOk => IsMethod(p, 11)
    case SentTuneOk(tune) => IsMethod(p, 31) && (tune.Some? ==> WithinOffers(p, tune.value))
    case SentOpen => IsMethod(p, 40)
    case SentClose => IsMethod(p, 50)
    case SentCloseOk => IsMethod(p, 51)
  }

  /** Limits no larger than the offers as the peer wrote them. */
  predicate WithinOffers(p: Option<Packet>, offers: seq<byte>)
  {
    && MethodOf(p).Some? && |offers| >= 6
    && var args := MethodOf(p).value.arguments;
       && |args| == 8
       && Value(args[..2]) <= Value(offers[..2])
       && var frameMax := Value(args[2..6]);
          frameMax == 0 || 4095 <= frameMax <= Value(offers[2..6])
  }

  /** The tapes a builder returns on: any, but for Tune-Ok's negotiation and its heartbeat. */
  predicate Suffices(sent: Sent, tape: Tape)
  {
    sent.SentTuneOk? ==> var c := ChooseLimits(sent.tune, tape); c.Chosen? && |c.rest| >= 3
  }

  lemma TuneOkNamed(tune: Option<seq<byte>>, tape: Tape, fuel: nat, tail: seq<byte>)
    requires fuel >= 6
    ensures var r := AssembleTuneOk(tune, 0, BaseChain(0), tape, fuel);
            && (r.Ok? <==> Suffices(SentTuneOk(tune), tape))
            && (r.Ok? ==> ReadAs(SentTuneOk(tune), BreakPacket(r.octets + tail)))
  {
    hide BaseChain, Assemble, BreakPacket, ChooseLimits, Value, TuneOkOps, Heartbeat;
    match tune
    case None => UnaskedReadBack(0, tape, fuel, tail); Unasked(tape);
    case Some(args) =>
      if |args| >= 6 {
        NegotiatedReadBack(args, 0, tape, fuel, tail);
        LimitsFit(args, tape);
      } else {
        TooShort(args, tape);
      }
  }

  lemma Unasked(tape: Tape)
    ensures ChooseLimits(None, tape) == Chosen(0xFFFF, -1, tape)
  {
  }

  lemma TooShort(args: seq<byte>, tape: Tape)
    requires |args| < 6
    ensures ChooseLimits(Some(args), tape) == Unchosen(Crash)
  {
  }

  /** The limits chosen are what two and four octets hold. */
  lemma LimitsFit(args: seq<byte>, tape: Tape)
    requires |args| >= 6
    ensures var c := ChooseLimits(Some(args), tape);
            c.Chosen? ==> c.channelMax % 0x1_0000 == c.channelMax && c.frameMax % 0x1_0000_0000 == c.frameMax
  {
    hide ChooseLimits, Value;
    LimitsWithinOffers(args, tape);
  }

  /** Every packet the deciders name comes out of its builder, and out of break_packet under that
      name, whatever follows it. */
  lemma SentReadBack(sent: Sent, tape: Tape, fuel: nat, tail: seq<byte>)
    requires sent != Nothing && fuel >= 6
    ensures var r := Built(sent, tape, fuel);
            && (r.Ok? <==> Suffices(sent, tape))
            && (r.Ok? ==> ReadAs(sent, BreakPacket(r.octets + tail)))
  {
    hide BaseChain, Assemble, BreakPacket, DecodeRule, StartOkOps, OpenOps, CloseOps, CloseOkOps, Load, PROTOCOL,
         WithinOffers;
    match sent
    case SentHeader => HeaderPacket(tape, fuel, tail);
    case SentStartOk => StartOkReadBack(0, tape, fuel, tail);
    case SentTuneOk(tune) => TuneOkNamed(tune, tape, fuel, tail);
    case SentOpen => OpenReadBack(0, tape, fuel, tail);
    case SentClose => CloseReadBack(0, tape, fuel, tail);
    case SentCloseOk => CloseOkReadBack(0, tape, fuel, tail);
  }

  /** What an orderly fuzzer must answer a packet with, if anything: the peer's question by method
      id, or its own next request when nothing has come in. */
  predicate Replies(before: State, question: Option<Packet>, answer: Option<Packet>)
  {
    if before == NotConnected then IsHeader(answer)
    else if question == None then
      if before == Tuned then IsMethod(answer, 40) else before == Connected && IsMethod(answer, 50)
    else
      || (IsMethod(question, 10) && IsMethod(answer, 11))
      || (IsMethod(question, 30) && IsMethod(answer, 31)
          && WithinOffers(answer, question.value.methodPayload.value.arguments))
      || (IsMethod(question, 50) && IsMethod(answer, 51))
  }

  lemma ReadAsReplies(e: Event, p: Option<Packet>)
    requires EventRules(e) && e.sent != Nothing && ReadAs(e.sent, p)
    ensures Replies(e.before, e.packet, p)
  {
    hide WithinOffers;
  }

  /** Question and answer on the wire, over every orderly run and every stream of numbers. */
  lemma RepliesMatch(w: World, chaos: Chaos, k: nat, tape: Tape, fuel: nat, tail: seq<byte>)
    requires OrderlyRun(w, chaos) && k < |w.log| && w.log[k].sent != Nothing && fuel >= 6
    ensures var e := w.log[k]; var r := Built(e.sent, tape, fuel);
            && (r.Ok? <==> Suffices(e.sent, tape))
            && (r.Ok? ==> Replies(e.before, e.packet, BreakPacket(r.octets + tail)))
  {
    hide OrderlyRun, Built, BreakPacket, IsMethod, ReadAs, Suffices, Replies;
    LogRules(w, chaos);
    assert EventRules(w.log[k]);
    SentReadBack(w.log[k].sent, tape, fuel, tail);
    var r := Built(w.log[k].sent, tape, fuel);
    if r.Ok? { ReadAsReplies(w.log[k], BreakPacket(r.octets + tail)); }
  }
}
