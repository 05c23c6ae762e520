/** Which packet is sent when (fuzzer/AMQP.c, fuzzer/Connection.c): the deciders, as the functions
    they compute and as the branching code that computes them. */
module Session {
  import opened Octets
  import opened CText
  import opened Frames

  /** enum State without NOOP, which nothing returns. */
  datatype State = NotConnected | Start | Tune | Tuned | Opening | Connected | Closing | CloseOk | Closed

  /** What is handed to send_packet: one of the builders' packets, or nothing. */
  datatype Sent =
    | Nothing
    | SentHeader
    | SentStartOk
    | SentTuneOk(tune: Option<seq<byte>>)
    | SentOpen
    | SentClose
    | SentCloseOk

  datatype Decision = Decision(next: State, waiting: bool, sent: Sent)

  const CONNECTION_CLASS: nat := 10

  /** The packets break_packet makes: a METHOD frame always has its method. */
  predicate Received(p: Packet) { p.kind == METHOD ==> p.methodPayload.Some? }

  lemma BrokenIsReceived(octets: seq<byte>)
    ensures BreakPacket(octets).Some? ==> Received(BreakPacket(octets).value)
  {
  }

  /** The offers connection_tune_ok divides by zero on, or reads past. */
  predicate BadTune(args: seq<byte>) { |args| < 6 || CharInShort(args, 0) == -1 || CharInInt(args, 2) == -1 }

  /* --- The deciders as functions --- */

  /** connection_packet_decider. None: it reads method data that is not there. */
  function ConnectionDecision(m: Option<Method>, s: State, waiting: bool): Option<Decision>
  {
    match m
    case None =>
      if s == Tuned then Some(Decision(Opening, true, SentOpen))
      else if s == Connected then Some(Decision(CloseOk, true, SentClose))
      else None
    case Some(Method(classId, methodId, arguments)) =>
      if classId != CONNECTION_CLASS then Some(Decision(CloseOk, waiting, Nothing))
      else if methodId == 10 then Some(Decision(Start, true, SentStartOk))
      else if methodId == 30 then Some(Decision(Tuned, false, SentTuneOk(Some(arguments))))
      else if methodId == 20 || methodId == 41 then Some(Decision(Connected, false, Nothing))
      else if methodId == 50 then Some(Decision(CloseOk, true, SentCloseOk))
      else if methodId == 51 then Some(Decision(Closed, false, Nothing))
      else Some(Decision(NotConnected, waiting, Nothing))
  }

  /** ordered_packet_decider. Where the source returns an unassigned pointer, nothing is sent. */
  function OrderedDecision(p: Option<Packet>, s: State, waiting: bool): Option<Decision>
  {
    if p.Some? && p.value.kind == PROTOCOL_HEADER then Some(Decision(NotConnected, false, Nothing))
    else if s == NotConnected then Some(Decision(Start, true, SentHeader))
    else match p
      case None =>
        if s == Tune || s == Tuned || s == Connected || s == Closing then ConnectionDecision(None, s, waiting)
        else Some(Decision(s, waiting, Nothing))
      case Some(packet) =>
        if packet.kind == METHOD then
          if packet.methodPayload == None then None
          else if packet.methodPayload.value.classId == CONNECTION_CLASS
            then ConnectionDecision(packet.methodPayload, s, waiting)
          else Some(Decision(s, waiting, Nothing))
        else Some(Decision(s, waiting, Nothing))
  }

  /** chaotic_packet_decider, by the roll of a six-sided die. */
  function ChaoticDecision(roll: nat): Decision
  {
    match roll % 6
    case 0 => Decision(Start, true, SentHeader)
    case 1 => Decision(Start, true, SentStartOk)
    case 2 => Decision(Tuned, false, SentTuneOk(None))
    case 3 => Decision(Opening, true, SentOpen)
    case 4 => Decision(CloseOk, true, SentClose)
    case _ => Decision(CloseOk, true, SentCloseOk)
  }

  /** PACKET_CHAOS, which the command line keeps between 0 and 4. */
  type Chaos = c: nat | c <= 4

  /** The dice of one call of packet_decider, and what becomes of the send. */
  datatype Luck = Luck(roll: nat, choice: nat, delivered: bool)

  /** Whether this roll leaves the packet to the ordered decider. */
  predicate Orderly(chaos: Chaos, luck: Luck) { luck.roll % 4 + 1 >= chaos }

  function Decide(p: Option<Packet>, s: State, waiting: bool, chaos: Chaos, luck: Luck): Option<Decision>
  {
    if Orderly(chaos, luck) then OrderedDecision(p, s, waiting) else Some(ChaoticDecision(luck.choice))
  }

  /** packet_decider: a decision whose packet cannot be delivered closes the connection. */
  function PacketDecision(p: Option<Packet>, s: State, waiting: bool, chaos: Chaos, luck: Luck,
      running: bool): Option<Decision>
  {
    match Decide(p, s, waiting, chaos, luck)
    case None => None
    case Some(d) =>
      if d.sent == Nothing || (running && luck.delivered) then Some(d) else Some(Decision(Closed, false, d.sent))
  }

  /* --- What a decision is about --- */

  predicate IsHeader(p: Option<Packet>) { p.Some? && p.value.kind == PROTOCOL_HEADER }

  /** A METHOD frame whose method is missing, which break_packet never makes. */
  predicate NoMethod(p: Packet) { p.kind == METHOD && p.methodPayload == None }

  function MethodOf(p: Option<Packet>): Option<Method>
  {
    if p.Some? && p.value.kind == METHOD then p.value.methodPayload else None
  }

  /** This method of the Connection class. */
  predicate Is(m: Option<Method>, id: nat) { m.Some? && m.value.classId == CONNECTION_CLASS && m.value.methodId == id }

  /** The state a packet leaves the channel in, and whether an answer is awaited: the same whoever
      decides to send it. */
  function StateAfter(sent: Sent): (State, bool)
    requires sent != Nothing
  {
    match sent
    case SentTuneOk(_) => (Tuned, false)
    case SentOpen => (Opening, true)
    case SentClose => (CloseOk, true)
    case SentCloseOk => (CloseOk, true)
    case _ => (Start, true)
  }

  /** A method of the Connection class that the decider has no branch for. */
  predicate Unknown(m: Option<Method>)
  {
    m.Some? && m.value.classId == CONNECTION_CLASS && m.value.methodId !in {10, 20, 30, 41, 50, 51}
  }

  /** Which packet answers what in an orderly decision, and what is sent unasked. */
  predicate Answers(p: Option<Packet>, s: State, sent: Sent)
  {
    var m, asked := MethodOf(p), s != NotConnected;
    && (sent == SentHeader <==> !IsHeader(p) && s == NotConnected)
    && (sent.SentStartOk? <==> asked && Is(m, 10))
    && (sent.SentTuneOk? <==> asked && Is(m, 30))
    && (sent.SentTuneOk? ==> sent.tune == Some(m.value.arguments))
    && (sent.SentCloseOk? <==> asked && Is(m, 50))
    && (sent == SentOpen <==> p == None && s == Tuned)
    && (sent == SentClose <==> p == None && s == Connected)
  }

  /** Where a packet leads that an orderly decision does not answer: a header to the initial state,
      Open-Ok and Secure to the connected one, Close-Ok to the end, methods of no branch back to the
      initial state, and everything else nowhere. */
  predicate Leads(p: Option<Packet>, s: State, next: State)
  {
    var m := MethodOf(p);
    if IsHeader(p) || Unknown(m) then next == NotConnected
    else if Is(m, 20) || Is(m, 41) then next == Connected
    else if Is(m, 51) then next == Closed
    else next == s
  }

  /** And whether an answer is awaited then: methods of no branch leave that as it was. */
  predicate Quiet(p: Option<Packet>, s: State, waiting: bool, next: State, awaited: bool)
  {
    var m := MethodOf(p);
    && Leads(p, s, next)
    && (awaited <==> waiting && !IsHeader(p) && !Is(m, 20) && !Is(m, 41) && !Is(m, 51))
  }

  /** The side of the die a packet is on. */
  predicate OnSide(sent: Sent, side: nat)
  {
    match sent
    case Nothing => false
    case SentHeader => side == 0
    case SentStartOk => side == 1
    case SentTuneOk(tune) => side == 2 && tune == None
    case SentOpen => side == 3
    case SentClose => side == 4
    case SentCloseOk => side == 5
  }

  /** What every step keeps of the state: the states no packet leads to stay out, and a state
      entered by a request is left waiting for its answer. */
  predicate Sound(s: State, waiting: bool)
  {
    && s != Tune && s != Closing
    && (s == Start || s == Opening || s == CloseOk ==> waiting)
  }

  /** A missing packet is only decided on when no response is expected. */
  predicate MayDecide(p: Option<Packet>, s: State, waiting: bool)
  {
    Sound(s, waiting) && s != Closed && (p == None ==> !waiting) && (p.Some? ==> Received(p.value))
  }

  /* --- The deciders as code --- */

  method ConnectionPacketDecider(m: Option<Method>, state: State, response: bool)
    returns (crashed: bool, nextState: State, responseExpected: bool, sent: Sent)
    ensures crashed <==> m == None && state != Tuned && state != Connected
    ensures sent.SentStartOk? <==> Is(m, 10)
    ensures sent.SentTuneOk? <==> Is(m, 30)
    ensures sent.SentTuneOk? ==> sent.tune == Some(m.value.arguments)
    ensures sent.SentCloseOk? <==> Is(m, 50)
    ensures sent == SentOpen <==> m == None && state == Tuned
    ensures sent == SentClose <==> m == None && state == Connected
    ensures sent != SentHeader && (sent != Nothing ==> (nextState, responseExpected) == StateAfter(sent))
    ensures !crashed ==> (nextState == Closed <==> Is(m, 51))
    ensures !crashed ==> (nextState == Connected <==> Is(m, 20) || Is(m, 41))
    ensures Is(m, 20) || Is(m, 41) || Is(m, 51) ==> !responseExpected && sent == Nothing
    ensures Unknown(m) ==> (nextState, responseExpected, sent) == (NotConnected, response, Nothing)
    ensures m.Some? && m.value.classId != CONNECTION_CLASS ==>
              (nextState, responseExpected, sent) == (CloseOk, response, Nothing)
    ensures Decided(crashed, nextState, responseExpected, sent, ConnectionDecision(m, state, response))
  {
    crashed, nextState, responseExpected, sent := false, state, response, Nothing;
    if m == None {
      if nextState == Tuned {
        return false, Opening, true, SentOpen;
      } else if nextState == Connected {
        return false, CloseOk, true, SentClose;
      }
    }
    if m == None { return true, nextState, responseExpected, sent; }
    if m.value.classId != CONNECTION_CLASS {
      nextState := CloseOk;
      return;
    }
    match m.value.methodId
    case 10 => nextState, responseExpected, sent := Start, true, SentStartOk;
    case 30 => nextState, responseExpected, sent := Tuned, false, SentTuneOk(Some(m.value.arguments));
    case 20 => nextState, responseExpected := Connected, false;
    case 41 => nextState, responseExpected := Connected, false;
    case 50 => nextState, responseExpected, sent := CloseOk, true, SentCloseOk;
    case 51 => nextState, responseExpected := Closed, false;
    case _ => nextState := NotConnected;
  }

  /** The out-parameters are the decision, or the code has run into a null pointer. */
  predicate Decided(crashed: bool, nextState: State, responseExpected: bool, sent: Sent, d: Option<Decision>)
  {
    match d
    case None => crashed
    case Some(dd) => !crashed && dd == Decision(nextState, responseExpected, sent)
  }

  /** An orderly decision answers its packet, or is led by it. */
  lemma OrderedSettles(p: Option<Packet>, s: State, waiting: bool)
    ensures var d := OrderedDecision(p, s, waiting);
            d.Some? ==>
              && Answers(p, s, d.value.sent)
              && (d.value.sent == Nothing ==> Quiet(p, s, waiting, d.value.next, d.value.waiting))
  {
  }

  method OrderedPacketDecider(packet: Option<Packet>, state: State, response: bool)
    returns (crashed: bool, nextState: State, responseExpected: bool, sent: Sent)
    ensures crashed <==>
              && !IsHeader(packet) && state != NotConnected
              && if packet == None then state == Tune || state == Closing else NoMethod(packet.value)
    ensures MayDecide(packet, state, response) ==> !crashed && Sound(nextState, responseExpected)
    ensures !crashed ==> Answers(packet, state, sent)
    ensures sent != Nothing ==> (nextState, responseExpected) == StateAfter(sent)
    ensures !crashed && sent == Nothing ==> Quiet(packet, state, response, nextState, responseExpected)
    ensures Decided(crashed, nextState, responseExpected, sent, OrderedDecision(packet, state, response))
  {
    OrderedSettles(packet, state, response);
    hide Answers, Quiet;
    crashed, nextState, responseExpected, sent := false, state, response, Nothing;
    if packet != None && packet.value.kind == PROTOCOL_HEADER {
      nextState, responseExpected := NotConnected, false;
      return;
    }
    if state == NotConnected {
      nextState, responseExpected, sent := Start, true, SentHeader;
    } else if packet == None {
      if state == Tune || state == Tuned || state == Connected || state == Closing {
        crashed, nextState, responseExpected, sent := ConnectionPacketDecider(None, state, response);
      }
    } else {
      if packet.value.kind == 0 { return; }
      if packet.value.kind == METHOD {
        if packet.value.methodPayload == None { crashed := true; return; }
        if packet.value.methodPayload.value.classId == CONNECTION_CLASS {
          crashed, nextState, responseExpected, sent := ConnectionPacketDecider(packet.value.methodPayload, state,
              response);
        }
      }
    }
  }

  method ChaoticPacketDecider(choice: nat) returns (nextState: State, responseExpected: bool, sent: Sent)
    ensures sent != Nothing && (nextState, responseExpected) == StateAfter(sent) && Sound(nextState, responseExpected)
    ensures OnSide(sent, choice % 6)
    ensures forall other: nat :: ChaoticDecision(other).sent == sent <==> other % 6 == choice % 6
    ensures Decision(nextState, responseExpected, sent) == ChaoticDecision(choice)
  {
    var roll := choice % 6;
    if roll == 0 {
      nextState, responseExpected, sent := Start, true, SentHeader;
    } else if roll == 1 {
      nextState, responseExpected, sent := Start, true, SentStartOk;
    } else if roll == 2 {
      nextState, responseExpected, sent := Tuned, false, SentTuneOk(None);
    } else if roll == 3 {
      nextState, responseExpected, sent := Opening, true, SentOpen;
    } else if roll == 4 {
      nextState, responseExpected, sent := CloseOk, true, SentClose;
    } else {
      nextState, responseExpected, sent := CloseOk, true, SentCloseOk;
    }
  }

  method PacketDecider(packet: Option<Packet>, state: State, response: bool, chaos: Chaos, luck: Luck, running: bool)
    returns (crashed: bool, nextState: State, responseExpected: bool, sent: Sent)
    ensures MayDecide(packet, state, response) ==> !crashed && Sound(nextState, responseExpected)
    ensures !crashed && sent != Nothing ==>
              (nextState, responseExpected) == if running && luck.delivered then StateAfter(sent) else (Closed, false)
    ensures !crashed ==>
              if luck.roll % 4 + 1 >= chaos then Answers(packet, state, sent) else OnSide(sent, luck.choice % 6)
    ensures !crashed && sent == Nothing ==> Quiet(packet, state, response, nextState, responseExpected)
    ensures var d := PacketDecision(packet, state, response, chaos, luck, running);
            Decided(crashed, nextState, responseExpected, sent, d)
  {
    hide OrderedDecision, ConnectionDecision, ChaoticDecision;
    var roll := luck.roll % 4 + 1;
    crashed := false;
    if roll >= chaos {
      crashed, nextState, responseExpected, sent := OrderedPacketDecider(packet, state, response);
      if crashed { return; }
    } else {
      nextState, responseExpected, sent := ChaoticPacketDecider(luck.choice);
    }
    if sent != Nothing {
      if running {
        if !luck.delivered { nextState, responseExpected := Closed, false; }
      } else {
        nextState, responseExpected := Closed, false;
      }
    }
  }

  /* --- What chaos levels do --- */

  /** Levels 0 and 1 leave every packet to the ordered decider, 2 and above do not: the share of
      chaotic rolls is (level - 1) / 4, not the level / 4 the documentation announces. */
  lemma ChaosShare(chaos: Chaos)
    ensures (forall luck :: Orderly(chaos, luck)) <==> chaos <= 1
    ensures forall roll: nat, choice: nat, delivered: bool ::
              Orderly(chaos, Luck(roll, choice, delivered)) <==> roll % 4 >= (if chaos == 0 then 0 else chaos - 1)
  {
    if chaos >= 2 { assert !Orderly(chaos, Luck(0, 0, true)); }
  }

  /** Every packet there is comes up on exactly one side of the die. */
  lemma ChaoticReaches(sent: Sent) returns (side: nat)
    requires sent != Nothing && (sent.SentTuneOk? ==> sent.tune == None)
    ensures side < 6 && forall roll: nat :: ChaoticDecision(roll).sent == sent <==> roll % 6 == side
  {
    side := match sent
      case SentHeader => 0
      case SentStartOk => 1
      case SentTuneOk(_) => 2
      case SentOpen => 3
      case SentClose => 4
      case SentCloseOk => 5;
  }

  /* --- One decision --- */

  /** A sound step: no null pointer is followed, and the next state is sound. */
  lemma DecisionSound(p: Option<Packet>, s: State, waiting: bool, chaos: Chaos, luck: Luck, running: bool)
    requires MayDecide(p, s, waiting)
    ensures var d := PacketDecision(p, s, waiting, chaos, luck, running);
            d.Some? && Sound(d.value.next, d.value.waiting)
    ensures p == None ==> s == NotConnected || s == Tuned || s == Connected
  {
  }

  /** Outside these states a missing packet would be followed through a null pointer exactly in the
      two states nothing enters. */
  lemma MissingPacketCrashes(s: State, waiting: bool)
    ensures OrderedDecision(None, s, waiting) == None <==> s == Tune || s == Closing
  {
  }
}
