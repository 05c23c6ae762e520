/** That the life cycle can be walked: from the listener's and the channel's own steps to whole
    exchanges, and from those to a session that opens a connection and closes it again. */
module Walk {
  import opened Octets
  import opened CText
  import opened Frames
  import opened OrderlyPackets
  import opened Session
  import opened Mailbox

  /* --- Runs, one behind the other --- */

  lemma {:induction false} RunOn(w: World, first: seq<Move>, later: seq<Move>, chaos: Chaos)
    requires Run(w, first, chaos).Some?
    ensures Run(w, first + later, chaos) == Run(Run(w, first, chaos).value, later, chaos)
    decreases |first|
  {
    hide Step;
    if first == [] {
      assert first + later == later;
    } else {
      assert (first + later)[1..] == first[1..] + later;
      RunOn(Step(w, first[0], chaos).value, first[1..], later, chaos);
    }
  }

  lemma OneMore(w: World, m: Move, rest: seq<Move>, chaos: Chaos)
    requires Step(w, m, chaos).Some?
    ensures Run(w, [m] + rest, chaos) == Run(Step(w, m, chaos).value, rest, chaos)
  {
    assert ([m] + rest)[1..] == rest;
  }

  /* --- Big steps --- */

  /** Between exchanges: the listener at the socket, the channel at the top of its loop, the mailbox
      empty and nobody in the mutex. */
  predicate Idle(w: World)
  {
    && Invariant(w) && !w.strayed && w.running
    && w.listener == Polling && w.channel == Top && w.owner == Nobody && w.slot == None
  }

  /** A frame for the channel, received while it idles. */
  function Deposited(w: World, p: Packet): World
  {
    w.(slot := Some(|w.deposits|), deposits := w.deposits + [p])
  }

  const DEPOSIT: seq<Move> := [TakeLock, Store, Release, Signal]

  /** The listener's five steps with a frame, wherever the channel stands outside the mutex. */
  lemma DepositRuns(w: World, octets: seq<byte>, p: Packet, chaos: Chaos)
    requires !w.strayed && w.listener == Polling && w.owner == Nobody && w.slot == None
    requires BreakPacket(octets) == Some(p) && p.kind != 0 && p.channel == 0
    ensures Run(w, [Receive(octets)] + DEPOSIT, chaos) == Some(Deposited(w, p).(channel := Signalled(w.channel)))
  {
    hide BreakPacket, Signalled;
    var u := w.(listener := WantsLock(p));
    OneMore(w, Receive(octets), DEPOSIT, chaos);
    assert DEPOSIT == [TakeLock] + [Store, Release, Signal];
    OneMore(u, TakeLock, [Store, Release, Signal], chaos);
    StoreRuns(w, p, chaos);
  }

  lemma StoreRuns(w: World, p: Packet, chaos: Chaos)
    requires !w.strayed && w.listener == Polling && w.owner == Nobody && w.slot == None
    ensures Run(w.(listener := HasLock(p), owner := ByListener), [Store, Release, Signal], chaos)
         == Some(Deposited(w, p).(channel := Signalled(w.channel)))
  {
    hide Signalled;
    var v := w.(listener := HasLock(p), owner := ByListener);
    assert [Store, Release, Signal] == [Store] + [Release, Signal];
    OneMore(v, Store, [Release, Signal], chaos);
    var x := Step(v, Store, chaos).value;
    assert [Release, Signal] == [Release] + [Signal] && [Signal] == [Signal] + [];
    OneMore(x, Release, [Signal], chaos);
    OneMore(Step(x, Release, chaos).value, Signal, [], chaos);
  }

  function TURN(luck: Luck): seq<Move> { [Check, Lock, Look, Act(luck), Unlock] }

  /** The packet lying in the mailbox. */
  function InSlot(w: World): Option<Packet>
  {
    if w.slot.Some? && w.slot.value < |w.deposits| then Some(w.deposits[w.slot.value]) else None
  }

  /** What the channel takes over from a decision, once round its loop. */
  function Decided(w: World, luck: Luck, chaos: Chaos, d: Decision): World
  {
    w.(state := d.next, waiting := d.waiting, slot := None,
       consumed := if w.slot.Some? then w.consumed + [w.slot.value] else w.consumed,
       log := w.log + [Event(w.state, w.waiting, InSlot(w), Orderly(chaos, luck), d.sent, w.running && luck.delivered,
           d.next)])
  }

  /** The channel holding the mutex over its mailbox. */
  function Held(w: World): World { w.(channel := Deciding(InSlot(w)), owner := ByChannel) }

  lemma TurnBegins(w: World, chaos: Chaos)
    requires !w.strayed && w.channel == Top && w.owner == Nobody && w.state != Closed
    requires (w.slot.Some? ==> w.slot.value < |w.deposits|) && (w.slot == None ==> !w.waiting)
    ensures Run(w, [Check, Lock, Look], chaos) == Some(Held(w))
  {
    var u := w.(channel := AtLock);
    var v := u.(channel := Looking, owner := ByChannel);
    assert [Check, Lock, Look] == [Check] + [Lock, Look] && [Lock, Look] == [Lock] + [Look] && [Look] == [Look] + [];
    OneMore(w, Check, [Lock, Look], chaos);
    OneMore(u, Lock, [Look], chaos);
    OneMore(v, Look, [], chaos);
  }

  lemma TurnEnds(w: World, luck: Luck, chaos: Chaos, d: Decision)
    requires !w.strayed && w.channel == Top && w.owner == Nobody
    requires PacketDecision(InSlot(w), w.state, w.waiting, chaos, luck, w.running) == Some(d) && !BadAnswer(d.sent)
    ensures Run(Held(w), [Act(luck), Unlock], chaos) == Some(Decided(w, luck, chaos, d))
  {
    hide PacketDecision, BadAnswer, Orderly, InSlot;
    var x := Held(w);
    assert [Act(luck), Unlock] == [Act(luck)] + [Unlock] && [Unlock] == [Unlock] + [];
    OneMore(x, Act(luck), [Unlock], chaos);
    OneMore(Acted(x, luck, chaos), Unlock, [], chaos);
  }

  lemma TurnRuns(w: World, luck: Luck, chaos: Chaos, d: Decision)
    requires !w.strayed && w.channel == Top && w.owner == Nobody && w.state != Closed
    requires (w.slot.Some? ==> w.slot.value < |w.deposits|) && (w.slot == None ==> !w.waiting)
    requires PacketDecision(InSlot(w), w.state, w.waiting, chaos, luck, w.running) == Some(d) && !BadAnswer(d.sent)
    ensures Run(w, TURN(luck), chaos) == Some(Decided(w, luck, chaos, d))
  {
    hide PacketDecision, BadAnswer, Orderly, InSlot, Run, Decided, Held;
    TurnBegins(w, chaos);
    TurnEnds(w, luck, chaos, d);
    RunOn(w, [Check, Lock, Look], [Act(luck), Unlock], chaos);
    assert TURN(luck) == [Check, Lock, Look] + [Act(luck), Unlock];
  }

  /* --- Exchanges --- */

  /** One more event, and where it leaves the channel. */
  predicate Went(w: World, u: World, p: Option<Packet>, next: State, waiting: bool, sent: Sent)
  {
    && Idle(u) && u.state == next && u.waiting == waiting
    && u.log == w.log + [Event(w.state, w.waiting, p, true, sent, true, next)]
    && u.deposits == w.deposits + match p case None => [] case Some(packet) => [packet]
  }

  /** Luck by which the packet is decided in order, and sent. */
  predicate Good(luck: Luck, chaos: Chaos) { Orderly(chaos, luck) && luck.delivered }

  lemma GoodLuck(chaos: Chaos) returns (luck: Luck)
    ensures Good(luck, chaos)
  {
    luck := Luck(3, 0, true);
  }

  /** Question and answer: a frame comes in, and the channel decides on it in order. */
  lemma Asked(w: World, octets: seq<byte>, p: Packet, d: Decision, chaos: Chaos) returns (moves: seq<Move>, u: World)
    requires Idle(w) && w.state != Closed
    requires BreakPacket(octets) == Some(p) && p.kind != 0 && p.channel == 0
    requires OrderedDecision(Some(p), w.state, w.waiting) == Some(d) && !BadAnswer(d.sent)
    ensures Run(w, moves, chaos) == Some(u) && Went(w, u, Some(p), d.next, d.waiting, d.sent)
  {
    hide Invariant, BreakPacket, OrderedDecision, BadAnswer;
    var luck := GoodLuck(chaos);
    var full := Deposited(w, p);
    var first := [Receive(octets)] + DEPOSIT;
    DepositRuns(w, octets, p, chaos);
    assert InSlot(full) == Some(p);
    TurnRuns(full, luck, chaos, d);
    RunOn(w, first, TURN(luck), chaos);
    moves, u := first + TURN(luck), Decided(full, luck, chaos, d);
    RunKeeps(w, moves, chaos);
  }

  /** The same world with the channel asleep over its empty mailbox. */
  function Asleep(w: World): World { w.(channel := Sleeping) }

  lemma FallsAsleep(w: World, chaos: Chaos)
    requires Idle(w) && w.state != Closed && w.waiting
    ensures Run(w, [Check, Lock, Look], chaos) == Some(Asleep(w))
  {
    hide Invariant;
    var u := w.(channel := AtLock);
    var v := u.(channel := Looking, owner := ByChannel);
    assert [Check, Lock, Look] == [Check] + [Lock, Look] && [Lock, Look] == [Lock] + [Look] && [Look] == [Look] + [];
    OneMore(w, Check, [Lock, Look], chaos);
    OneMore(u, Lock, [Look], chaos);
    OneMore(v, Look, [], chaos);
  }

  /** A wakeup for no reason is slept off. */
  lemma SleepsOn(w: World, chaos: Chaos)
    requires Idle(w) && w.waiting
    ensures Run(Asleep(w), [WakeUp, Relock, Look], chaos) == Some(Asleep(w))
  {
    hide Invariant;
    var u := w.(channel := Woken);
    var v := u.(channel := Looking, owner := ByChannel);
    assert [WakeUp, Relock, Look] == [WakeUp] + [Relock, Look];
    assert [Relock, Look] == [Relock] + [Look] && [Look] == [Look] + [];
    OneMore(Asleep(w), WakeUp, [Relock, Look], chaos);
    OneMore(u, Relock, [Look], chaos);
    OneMore(v, Look, [], chaos);
  }

  /** The deposit's signal wakes it, and it looks again. */
  lemma Wakes(w: World, octets: seq<byte>, p: Packet, chaos: Chaos)
    requires Idle(w) && BreakPacket(octets) == Some(p) && p.kind != 0 && p.channel == 0
    ensures Run(Asleep(w), [Receive(octets)] + DEPOSIT, chaos) == Some(Deposited(w, p).(channel := Woken))
    ensures Run(Deposited(w, p).(channel := Woken), [Relock, Look], chaos) == Some(Held(Deposited(w, p)))
  {
    hide BreakPacket, Invariant;
    DepositRuns(Asleep(w), octets, p, chaos);
    assert Deposited(Asleep(w), p).(channel := Woken) == Deposited(w, p).(channel := Woken);
    var u := Deposited(w, p).(channel := Woken);
    assert [Relock, Look] == [Relock] + [Look] && [Look] == [Look] + [];
    OneMore(u, Relock, [Look], chaos);
    OneMore(u.(channel := Looking, owner := ByChannel), Look, [], chaos);
  }

  /** Question and answer, the channel having gone to sleep for want of the question. */
  lemma AskedAsleep(w: World, octets: seq<byte>, p: Packet, d: Decision, chaos: Chaos)
    returns (moves: seq<Move>, u: World)
    requires Idle(w) && w.state != Closed && w.waiting
    requires BreakPacket(octets) == Some(p) && p.kind != 0 && p.channel == 0
    requires OrderedDecision(Some(p), w.state, w.waiting) == Some(d) && !BadAnswer(d.sent)
    ensures Run(w, moves, chaos) == Some(u) && Went(w, u, Some(p), d.next, d.waiting, d.sent)
  {
    hide Invariant, BreakPacket, OrderedDecision, BadAnswer, Run, Step;
    var luck := GoodLuck(chaos);
    var full := Deposited(w, p);
    assert InSlot(full) == Some(p);
    FallsAsleep(w, chaos);
    Wakes(w, octets, p, chaos);
    TurnEnds(full, luck, chaos, d);
    var first, second := [Check, Lock, Look], [Receive(octets)] + DEPOSIT;
    RunOn(w, first, second, chaos);
    RunOn(w, first + second, [Relock, Look], chaos);
    RunOn(w, first + second + [Relock, Look], [Act(luck), Unlock], chaos);
    moves, u := first + second + [Relock, Look] + [Act(luck), Unlock], Decided(full, luck, chaos, d);
    RunKeeps(w, moves, chaos);
  }

  /** A request of the channel's own, when it expects nothing. */
  lemma Unasked(w: World, d: Decision, chaos: Chaos) returns (moves: seq<Move>, u: World)
    requires Idle(w) && w.state != Closed && !w.waiting
    requires OrderedDecision(None, w.state, w.waiting) == Some(d) && !BadAnswer(d.sent)
    ensures Run(w, moves, chaos) == Some(u) && Went(w, u, None, d.next, d.waiting, d.sent)
  {
    hide Invariant, OrderedDecision, BadAnswer;
    var luck := GoodLuck(chaos);
    TurnRuns(w, luck, chaos, d);
    moves, u := TURN(luck), Decided(w, luck, chaos, d);
    RunKeeps(w, moves, chaos);
  }

  /* --- Without the listener --- */

  const LEAVE: seq<Move> := [Stop, SignalAll, ClearRunning]

  /** The listener leaves: the flag is cleared, and a sleeping channel woken once more. */
  lemma Leaves(w: World, chaos: Chaos)
    requires w.listener == Polling && !w.strayed
    ensures Run(w, LEAVE, chaos)
         == Some(w.(listener := Gone, running := false, channel := if w.channel == Sleeping then Woken else w.channel))
  {
    assert LEAVE == [Stop] + [SignalAll, ClearRunning];
    assert [SignalAll, ClearRunning] == [SignalAll] + [ClearRunning] && [ClearRunning] == [ClearRunning] + [];
    OneMore(w, Stop, [SignalAll, ClearRunning], chaos);
    var u := w.(listener := LastSignal);
    OneMore(u, SignalAll, [ClearRunning], chaos);
    OneMore(Step(u, SignalAll, chaos).value, ClearRunning, [], chaos);
  }

  /** After that, the first packet the channel would send closes the connection, unsent. */
  lemma ClosesUnsent(w: World, luck: Luck, d: Decision, chaos: Chaos)
    requires Idle(w) && w.state != Closed && !w.waiting
    requires Decide(None, w.state, w.waiting, chaos, luck) == Some(d) && d.sent != Nothing && !BadAnswer(d.sent)
    ensures var r := Run(w, LEAVE + TURN(luck), chaos);
            && r.Some? && r.value.state == Closed && !r.value.waiting && r.value.listener == Gone
            && r.value.log == w.log + [Event(w.state, false, None, Orderly(chaos, luck), d.sent, false, Closed)]
  {
    hide Invariant, Decide, BadAnswer, Orderly;
    Leaves(w, chaos);
    var u := w.(listener := Gone, running := false);
    TurnRuns(u, luck, chaos, Decision(Closed, false, d.sent));
    RunOn(w, LEAVE, TURN(luck), chaos);
  }

  /* --- A whole session --- */

  /** A method frame of the Connection class, as the peer writes it and as break_packet reads it. */
  function MethodOctets(id: byte, args: seq<byte>): seq<byte> { FrameOctets(METHOD, 0, [0, 10] + [0, id] + args) }

  function MethodPacket(id: byte, args: seq<byte>): Packet
  {
    Packet(METHOD, 0, |args| + 4, [], Some(Method(CONNECTION_CLASS, id, args)))
  }

  /** The shortest arguments break_packet may misread are longer than these. */
  predicate Fit(args: seq<byte>) { |args| + 4 < 0x8000 }

  /** Such a frame, awaited: it comes before the channel looks for it, or finds it asleep. */
  lemma MethodAsked(w: World, id: byte, args: seq<byte>, d: Decision, early: bool, chaos: Chaos)
    returns (moves: seq<Move>, u: World)
    requires Idle(w) && w.state != Closed && w.waiting && Fit(args)
    requires OrderedDecision(Some(MethodPacket(id, args)), w.state, w.waiting) == Some(d) && !BadAnswer(d.sent)
    ensures Run(w, moves, chaos) == Some(u)
    ensures Went(w, u, Some(MethodPacket(id, args)), d.next, d.waiting, d.sent)
  {
    hide Idle, OrderedDecision, BadAnswer, FrameOctets, BreakPacket;
    MethodReadBack(id, args, []);
    assert MethodOctets(id, args) + [] == MethodOctets(id, args);
    if early {
      moves, u := Asked(w, MethodOctets(id, args), MethodPacket(id, args), d, chaos);
    } else {
      moves, u := AskedAsleep(w, MethodOctets(id, args), MethodPacket(id, args), d, chaos);
    }
  }

  lemma AtStart()
    ensures Idle(Initial())
  {
  }

  /** Header, Start, Tune: from the initial state to a tuned connection. */
  lemma Tunes(start: seq<byte>, tune: seq<byte>, early: bool, chaos: Chaos) returns (moves: seq<Move>, w: World)
    requires Fit(start) && Fit(tune) && !BadTune(tune)
    ensures Run(Initial(), moves, chaos) == Some(w) && Idle(w) && w.state == Tuned && !w.waiting
    ensures w.log == [
              Event(NotConnected, false, None, true, SentHeader, true, Start),
              Event(Start, true, Some(MethodPacket(10, start)), true, SentStartOk, true, Start),
              Event(Start, true, Some(MethodPacket(30, tune)), true, SentTuneOk(Some(tune)), true, Tuned)]
    ensures w.deposits == [MethodPacket(10, start), MethodPacket(30, tune)]
  {
    hide Idle, Run, BadTune;
    AtStart();
    var header, w1 := Unasked(Initial(), Decision(Start, true, SentHeader), chaos);
    var startOk, w2 := MethodAsked(w1, 10, start, Decision(Start, true, SentStartOk), early, chaos);
    var tuneOk, w3 := MethodAsked(w2, 30, tune, Decision(Tuned, false, SentTuneOk(Some(tune))), early, chaos);
    RunOn(Initial(), header, startOk, chaos);
    RunOn(Initial(), header + startOk, tuneOk, chaos);
    moves, w := header + startOk + tuneOk, w3;
  }

  /** Open, Open-Ok: a tuned connection opened, with nothing awaited. */
  lemma Opens(w: World, openOk: seq<byte>, early: bool, chaos: Chaos) returns (moves: seq<Move>, u: World)
    requires Idle(w) && w.state == Tuned && !w.waiting && Fit(openOk)
    ensures Run(w, moves, chaos) == Some(u) && Idle(u) && u.state == Connected && !u.waiting
    ensures u.log == w.log + [
              Event(Tuned, false, None, true, SentOpen, true, Opening),
              Event(Opening, true, Some(MethodPacket(41, openOk)), true, Nothing, true, Connected)]
    ensures u.deposits == w.deposits + [MethodPacket(41, openOk)]
  {
    hide Idle, Run;
    var open, w1 := Unasked(w, Decision(Opening, true, SentOpen), chaos);
    var ok, w2 := MethodAsked(w1, 41, openOk, Decision(Connected, false, Nothing), early, chaos);
    RunOn(w, open, ok, chaos);
    moves, u := open + ok, w2;
  }

  /** Close, Close-Ok: an open connection closed, and the channel's loop left. */
  lemma Closes(w: World, closeOk: seq<byte>, early: bool, chaos: Chaos) returns (moves: seq<Move>, u: World)
    requires Idle(w) && w.state == Connected && !w.waiting && Fit(closeOk)
    ensures Run(w, moves, chaos) == Some(u) && u.channel == Ended && u.state == Closed
    ensures u.log == w.log + [
              Event(Connected, false, None, true, SentClose, true, CloseOk),
              Event(CloseOk, true, Some(MethodPacket(51, closeOk)), true, Nothing, true, Closed)]
    ensures u.deposits == w.deposits + [MethodPacket(51, closeOk)] && u.listener == Polling && !u.strayed
  {
    var close, w1 := Unasked(w, Decision(CloseOk, true, SentClose), chaos);
    var ok, w2 := MethodAsked(w1, 51, closeOk, Decision(Closed, false, Nothing), early, chaos);
    assert Step(w2, Check, chaos) == Some(w2.(channel := Ended));
    OneMore(w2, Check, [], chaos);
    assert [Check] + [] == [Check];
    hide Idle, Step, Run;
    RunOn(w, close, ok, chaos);
    RunOn(w, close + ok, [Check], chaos);
    moves, u := close + ok + [Check], w2.(channel := Ended);
  }

  /** A peer that sends Start, Tune, Open-Ok and Close-Ok, with any arguments but an offer that
      crashes Tune-Ok's builder, can be walked through the whole life cycle: at every packet chaos
      level some run that receives just those four frames sends the header, Start-Ok, Tune-Ok, Open and
      Close, each in its turn, and ends closed - whether the frames come early or find the channel
      asleep. */
  lemma LifeCycle(start: seq<byte>, tune: seq<byte>, openOk: seq<byte>, closeOk: seq<byte>, early: bool,
      chaos: Chaos)
    returns (moves: seq<Move>, w: World)
    requires Fit(start) && Fit(tune) && Fit(openOk) && Fit(closeOk) && !BadTune(tune)
    ensures Run(Initial(), moves, chaos) == Some(w) && w.channel == Ended && w.state == Closed
    ensures w.log == [
              Event(NotConnected, false, None, true, SentHeader, true, Start),
              Event(Start, true, Some(MethodPacket(10, start)), true, SentStartOk, true, Start),
              Event(Start, true, Some(MethodPacket(30, tune)), true, SentTuneOk(Some(tune)), true, Tuned),
              Event(Tuned, false, None, true, SentOpen, true, Opening),
              Event(Opening, true, Some(MethodPacket(41, openOk)), true, Nothing, true, Connected),
              Event(Connected, false, None, true, SentClose, true, CloseOk),
              Event(CloseOk, true, Some(MethodPacket(51, closeOk)), true, Nothing, true, Closed)]
    ensures Heard(moves)
         == [MethodPacket(10, start), MethodPacket(30, tune), MethodPacket(41, openOk), MethodPacket(51, closeOk)]
  {
    hide Idle, Run, BadTune, MethodPacket;
    var tunes, tuned := Tunes(start, tune, early, chaos);
    var opens, connected := Opens(tuned, openOk, early, chaos);
    var closes, closed := Closes(connected, closeOk, early, chaos);
    RunOn(Initial(), tunes, opens, chaos);
    RunOn(Initial(), tunes + opens, closes, chaos);
    moves, w := tunes + opens + closes, closed;
    DepositsAreHeard(moves, w, chaos);
  }
}
