/** The listener thread and the channel thread (fuzzer/AMQP.c): a one-packet mailbox under a mutex
    and a condition variable, the channel deciding while it holds the mutex. Runs are sequences of
    thread steps in any order, with wakeups for no reason; each step is one the source takes. */
module Mailbox {
  import opened Octets
  import opened CText
  import opened Frames
  import opened Session

  /** Where the listener stands; the last four are the deposit of one packet and its signal. */
  datatype Listener =
    | Polling
    | WantsLock(packet: Packet)
    | HasLock(packet: Packet)
    | Deposited
    | OwesSignal
    | LastSignal
    | ClearingRunning
    | Gone

  /** Where the channel stands in its loop. */
  datatype Channel =
    | Top
    | AtLock
    | Looking                                    // holds the mutex
    | Sleeping                                   // in cond_wait, mutex released
    | Woken                                      // leaving cond_wait, wants the mutex
    | Deciding(packet: Option<Packet>)           // holds the mutex
    | Unlocking                                  // holds the mutex, slot cleared
    | Ended

  datatype Owner = Nobody | ByListener | ByChannel

  /** One call of packet_decider, as it went. */
  datatype Event = Event(before: State, waiting: bool, packet: Option<Packet>, orderly: bool, sent: Sent,
      delivered: bool, after: State)

  datatype World = World(
    listener: Listener,
    channel: Channel,
    owner: Owner,
    slot: Option<nat>,          // which deposit lies in the mailbox
    state: State,
    waiting: bool,
    running: bool,
    crashed: bool,              // a decider has followed a null pointer
    strayed: bool,              // break_packet or a builder has; nothing is said of what follows
    deposits: seq<Packet>,      // every packet ever put into the mailbox
    consumed: seq<nat>,         // which deposits were taken out, in order
    overwritten: nat,
    log: seq<Event>)

  function Initial(): World
  {
    World(Polling, Top, Nobody, None, NotConnected, false, true, false, false, [], [], 0, [])
  }

  /** Everything the two threads may do next. */
  datatype Move =
    | Receive(octets: seq<byte>) | TakeLock | Store | Release | Signal | Stop | SignalAll | ClearRunning
    | Check | Lock | Look | WakeUp | Relock | Act(luck: Luck) | Unlock

  /** pthread_cond_signal: a sleeper wakes, a signal to nobody is lost. */
  function Signalled(c: Channel): Channel { if c == Sleeping then Woken else c }

  /** The receive buffer on which break_packet, or the index into the channels, leaves its bounds:
      there is a mailbox for channel 0 only. */
  predicate BadBuffer(octets: seq<byte>)
  {
    match BreakPacket(octets)
    case None => true
    case Some(p) => p.kind != 0 && p.channel != 0
  }

  /** The packet a builder crashes on. */
  predicate BadAnswer(sent: Sent) { sent.SentTuneOk? && sent.tune.Some? && BadTune(sent.tune.value) }

  /** One step; None when that thread cannot take it now, or the program has left its bounds. */
  function Step(w: World, m: Move, chaos: Chaos): Option<World>
  {
    if w.strayed then None
    else match m
    // listener
    case Receive(octets) =>
      if w.listener != Polling then None
      else if BadBuffer(octets) then Some(w.(strayed := true))
      else
        var p := BreakPacket(octets).value;
        if p.kind == 0 then Some(w) else Some(w.(listener := WantsLock(p)))
    case TakeLock =>
      if !w.listener.WantsLock? || w.owner != Nobody then None
      else Some(w.(listener := HasLock(w.listener.packet), owner := ByListener))
    case Store =>
      if !w.listener.HasLock? then None
      else Some(w.(listener := Deposited, slot := Some(|w.deposits|), deposits := w.deposits + [w.listener.packet],
                   overwritten := w.overwritten + if w.slot.Some? then 1 else 0))
    case Release =>
      if w.listener != Deposited then None else Some(w.(listener := OwesSignal, owner := Nobody))
    case Signal =>
      if w.listener != OwesSignal then None else Some(w.(listener := Polling, channel := Signalled(w.channel)))
    case Stop => if w.listener != Polling then None else Some(w.(listener := LastSignal))
    case SignalAll =>
      if w.listener != LastSignal then None
      else Some(w.(listener := ClearingRunning, channel := Signalled(w.channel)))
    case ClearRunning =>
      if w.listener != ClearingRunning then None else Some(w.(listener := Gone, running := false))
    // channel
    case Check =>
      if w.channel != Top then None else Some(w.(channel := if w.state == Closed then Ended else AtLock))
    case Lock =>
      if w.channel != AtLock || w.owner != Nobody then None else Some(w.(channel := Looking, owner := ByChannel))
    case Look =>
      if w.channel != Looking then None
      else if w.slot.Some? then
        if w.slot.value >= |w.deposits| then None
        else Some(w.(channel := Deciding(Some(w.deposits[w.slot.value]))))
      else if !w.waiting then Some(w.(channel := Deciding(None)))
      else Some(w.(channel := Sleeping, owner := Nobody))
    case WakeUp => if w.channel != Sleeping then None else Some(w.(channel := Woken))
    case Relock =>
      if w.channel != Woken || w.owner != Nobody then None else Some(w.(channel := Looking, owner := ByChannel))
    case Act(luck) =>
      if !w.channel.Deciding? then None else Some(Acted(w, luck, chaos))
    case Unlock =>
      if w.channel != Unlocking then None else Some(w.(channel := Top, owner := Nobody))
  }

  /** packet_decider's verdict is taken over and the mailbox emptied. */
  function Acted(w: World, luck: Luck, chaos: Chaos): World
    requires w.channel.Deciding?
  {
    var p := w.channel.packet;
    match PacketDecision(p, w.state, w.waiting, chaos, luck, w.running)
    case None => w.(crashed := true)
    case Some(d) =>
      if BadAnswer(d.sent) then w.(strayed := true)
      else w.(channel := Unlocking, state := d.next, waiting := d.waiting, slot := None,
           consumed := if w.slot.Some? then w.consumed + [w.slot.value] else w.consumed,
           log := w.log + [Event(w.state, w.waiting, p, Orderly(chaos, luck), d.sent, w.running && luck.delivered,
               d.next)])
  }

  function Run(w: World, moves: seq<Move>, chaos: Chaos): Option<World>
    decreases |moves|
  {
    if moves == [] then Some(w)
    else match Step(w, moves[0], chaos)
      case None => None
      case Some(u) => Run(u, moves[1..], chaos)
  }

  /* --- What every reachable world satisfies --- */

  predicate Increasing(s: seq<nat>) { forall i, j | 0 <= i < j < |s| :: s[i] < s[j] }

  /** The mutex is where the threads think it is. */
  predicate MutexHeld(w: World)
  {
    && (w.owner == ByListener <==> w.listener.HasLock? || w.listener == Deposited)
    && (w.owner == ByChannel <==> w.channel == Looking || w.channel.Deciding? || w.channel == Unlocking)
  }

  /** Every deposit is consumed, overwritten, or still there; none twice, and in order. */
  predicate Accounted(w: World)
  {
    && Increasing(w.consumed)
    && (forall i | 0 <= i < |w.consumed| :: w.consumed[i] < |w.deposits|)
    && |w.deposits| == |w.consumed| + w.overwritten + (if w.slot.Some? then 1 else 0)
    && (w.slot.Some? ==> w.slot.value + 1 == |w.deposits| && w.slot.value !in w.consumed)
    && (forall i | 0 <= i < |w.deposits| :: Deliverable(w.deposits[i]))
  }

  /** What the listener puts into the mailbox: packets of break_packet, no empty ones, all for the one
      channel there is. */
  predicate Deliverable(p: Packet) { Received(p) && p.kind != 0 && p.channel == 0 }

  /** A channel asleep over a full mailbox is still owed its signal. */
  predicate NoLostWakeup(w: World)
  {
    w.channel == Sleeping && w.slot.Some? ==> w.listener == Deposited || w.listener == OwesSignal
  }

  /** The packet being decided on is the one in the mailbox, and it may be decided on. */
  predicate DecisionReady(w: World)
  {
    && Sound(w.state, w.waiting)
    && (w.channel.Deciding? ==>
          && MayDecide(w.channel.packet, w.state, w.waiting)
          && w.slot.Some? == w.channel.packet.Some?
          && (w.slot.Some? ==> w.slot.value < |w.deposits| && w.deposits[w.slot.value] == w.channel.packet.value))
    && (w.channel in {Sleeping, Woken, Looking, AtLock} ==> w.state != Closed)
  }

  predicate ListenerReady(w: World)
  {
    (w.listener.WantsLock? || w.listener.HasLock?) ==> Deliverable(w.listener.packet)
  }

  /** The running flag tells whether the listener is still there. */
  predicate RunningTold(w: World) { w.running <==> w.listener != Gone }

  predicate Invariant(w: World)
  {
    && !w.crashed && MutexHeld(w) && Accounted(w) && NoLostWakeup(w) && DecisionReady(w)
    && ListenerReady(w) && RunningTold(w)
  }

  lemma StoreKeeps(w: World, chaos: Chaos)
    requires Invariant(w) && w.listener.HasLock? && !w.strayed
    ensures Invariant(Step(w, Store, chaos).value)
  {
    var u := Step(w, Store, chaos).value;
    assert forall i | 0 <= i < |w.deposits| :: u.deposits[i] == w.deposits[i];
  }

  lemma ConsumedGrows(w: World)
    requires Accounted(w) && w.slot.Some?
    ensures var c := w.consumed + [w.slot.value]; Increasing(c) && forall i | 0 <= i < |c| :: c[i] < |w.deposits|
  {
    assert forall i | 0 <= i < |w.consumed| :: w.consumed[i] in w.consumed;
  }

  lemma ActAccounts(w: World, luck: Luck, chaos: Chaos)
    requires Accounted(w) && w.channel.Deciding?
    ensures Accounted(Acted(w, luck, chaos))
  {
    hide PacketDecision, BadAnswer, Deliverable, Increasing, Orderly;
    if w.slot.Some? { ConsumedGrows(w); }
  }

  lemma ActKeeps(w: World, luck: Luck, chaos: Chaos)
    requires Invariant(w) && w.channel.Deciding? && !w.strayed
    ensures Invariant(Step(w, Act(luck), chaos).value)
  {
    hide PacketDecision, Accounted, BadAnswer;
    DecisionSound(w.channel.packet, w.state, w.waiting, chaos, luck, w.running);
    ActAccounts(w, luck, chaos);
  }

  lemma ReceiveKeeps(w: World, octets: seq<byte>, chaos: Chaos)
    requires Invariant(w) && Step(w, Receive(octets), chaos).Some?
    ensures Invariant(Step(w, Receive(octets), chaos).value)
  {
    hide BreakPacket;
    BrokenIsReceived(octets);
  }

  lemma StepKeeps(w: World, m: Move, chaos: Chaos)
    requires Invariant(w) && Step(w, m, chaos).Some?
    ensures Invariant(Step(w, m, chaos).value)
  {
    match m
    case Store => StoreKeeps(w, chaos);
    case Act(luck) => ActKeeps(w, luck, chaos);
    case Receive(octets) => ReceiveKeeps(w, octets, chaos);
    case _ =>
  }

  /** The moves on which the program leaves its bounds: exactly these make a world stray. */
  predicate Hazard(w: World, m: Move, chaos: Chaos)
  {
    || (m.Receive? && BadBuffer(m.octets))
    || (m.Act? && w.channel.Deciding? &&
          var d := PacketDecision(w.channel.packet, w.state, w.waiting, chaos, m.luck, w.running);
          d.Some? && BadAnswer(d.value.sent))
  }

  lemma StepStrays(w: World, m: Move, chaos: Chaos)
    requires Step(w, m, chaos).Some?
    ensures !w.strayed && (Step(w, m, chaos).value.strayed <==> Hazard(w, m, chaos))
  {
    hide PacketDecision, BadBuffer, BadAnswer;
  }

  /** A run leaves the program's bounds exactly when its last move is such a move; none before is. */
  lemma {:induction false} StraysExactly(w: World, moves: seq<Move>, chaos: Chaos)
    requires moves != [] && Run(w, moves, chaos).Some?
    ensures var last := |moves| - 1; var u := Run(w, moves[..last], chaos);
            && u.Some? && !u.value.strayed
            && (Run(w, moves, chaos).value.strayed <==> Hazard(u.value, moves[last], chaos))
    decreases |moves|
  {
    hide Step, Hazard;
    var v := Step(w, moves[0], chaos).value;
    StepStrays(w, moves[0], chaos);
    if |moves| == 1 {
      assert moves[..0] == [] && moves[1..] == [];
    } else {
      StraysExactly(v, moves[1..], chaos);
      assert moves[1..][..|moves| - 2] == moves[..|moves| - 1][1..];
    }
  }

  /** Over every interleaving, with any octets received, any dice, any failed sends and any
      spurious wakeups: the invariant. */
  lemma {:induction false} RunKeeps(w: World, moves: seq<Move>, chaos: Chaos)
    requires Invariant(w) && Run(w, moves, chaos).Some?
    ensures Invariant(Run(w, moves, chaos).value)
    decreases |moves|
  {
    if moves != [] {
      StepKeeps(w, moves[0], chaos);
      RunKeeps(Step(w, moves[0], chaos).value, moves[1..], chaos);
    }
  }

  ghost predicate Reachable(w: World, chaos: Chaos)
  {
    exists moves: seq<Move> :: Run(Initial(), moves, chaos) == Some(w)
  }

  lemma ReachableInvariant(w: World, chaos: Chaos)
    requires Reachable(w, chaos)
    ensures Invariant(w)
  {
    var moves: seq<Move> :| Run(Initial(), moves, chaos) == Some(w);
    RunKeeps(Initial(), moves, chaos);
  }

  /** No run reaches a null pointer; the connection is in one of seven states, waiting in those
      entered by a request; and a missing packet is only decided on in three of them. */
  lemma ReachableStates(w: World, chaos: Chaos)
    requires Reachable(w, chaos)
    ensures !w.crashed
    ensures w.state in {NotConnected, Start, Tuned, Opening, Connected, CloseOk, Closed}
    ensures w.state in {Start, Opening, CloseOk} ==> w.waiting
    ensures w.channel == Deciding(None) ==> w.state in {NotConnected, Tuned, Connected}
  {
    ReachableInvariant(w, chaos);
  }

  /** The mailbox neither duplicates nor reorders nor invents packets. */
  lemma ReachableAccount(w: World, chaos: Chaos)
    requires Reachable(w, chaos)
    ensures |w.deposits| == |w.consumed| + w.overwritten + (if w.slot.Some? then 1 else 0)
    ensures forall i, j | 0 <= i < j < |w.consumed| :: w.consumed[i] < w.consumed[j] < |w.deposits|
    ensures w.slot.Some? ==> forall i | 0 <= i < |w.consumed| :: w.consumed[i] < w.slot.value
  {
    ReachableInvariant(w, chaos);
    forall i | 0 <= i < |w.consumed| ensures w.slot.Some? ==> w.consumed[i] < w.slot.value {
      assert w.consumed[i] in w.consumed;
    }
  }

  /** The running flag is cleared exactly when the listener has gone. */
  lemma ReachableRunning(w: World, chaos: Chaos)
    requires Reachable(w, chaos)
    ensures w.running <==> w.listener != Gone
  {
    ReachableInvariant(w, chaos);
  }

  /** What a decision logs: a packet is delivered exactly when the send goes well and the listener is
      still there; without it, whatever the decision would send closes the connection. */
  lemma GoneCloses(w: World, luck: Luck, chaos: Chaos)
    requires Reachable(w, chaos) && w.channel.Deciding? && !Acted(w, luck, chaos).strayed
    ensures var u := Acted(w, luck, chaos);
            && |u.log| == |w.log| + 1 && u.log[..|w.log|] == w.log
            && var e := u.log[|w.log|];
               && (e.delivered <==> luck.delivered && w.listener != Gone)
               && (e.sent != Nothing && w.listener == Gone ==> u.state == Closed && !u.waiting)
               && (e.sent != Nothing && !luck.delivered ==> u.state == Closed && !u.waiting)
               && (e.sent != Nothing && e.delivered ==> (u.state, u.waiting) == StateAfter(e.sent))
  {
    hide BadAnswer;
    ReachableInvariant(w, chaos);
    DecisionSound(w.channel.packet, w.state, w.waiting, chaos, luck, w.running);
  }

  /* --- Nothing is lost on the way into the mailbox --- */

  /** The packet a move takes from the socket. */
  function HeardBy(m: Move): seq<Packet>
  {
    if m.Receive? && BreakPacket(m.octets).Some? && BreakPacket(m.octets).value.kind != 0
      then [BreakPacket(m.octets).value] else []
  }

  function Heard(moves: seq<Move>): seq<Packet>
  {
    if moves == [] then [] else HeardBy(moves[0]) + Heard(moves[1..])
  }

  /** The packet the listener is about to store. */
  function InHand(l: Listener): seq<Packet>
  {
    match l case WantsLock(p) => [p] case HasLock(p) => [p] case _ => []
  }

  lemma StepHears(w: World, m: Move, chaos: Chaos)
    requires Step(w, m, chaos).Some? && !Step(w, m, chaos).value.strayed
    ensures var u := Step(w, m, chaos).value;
            u.deposits + InHand(u.listener) == w.deposits + InHand(w.listener) + HeardBy(m)
  {
    hide BreakPacket, PacketDecision, BadAnswer, Signalled, HeardBy;
    if m.Receive? {
      ReceiveHears(w, m.octets, chaos);
    } else {
      assert HeardBy(m) == [] by { NothingHeard(m); }
      var u := Step(w, m, chaos).value;
      assert m != Store ==> u.deposits == w.deposits && InHand(u.listener) == InHand(w.listener);
    }
  }

  lemma NothingHeard(m: Move)
    requires !m.Receive?
    ensures HeardBy(m) == []
  {
  }

  lemma ReceiveHears(w: World, octets: seq<byte>, chaos: Chaos)
    requires Step(w, Receive(octets), chaos).Some? && !Step(w, Receive(octets), chaos).value.strayed
    ensures var u := Step(w, Receive(octets), chaos).value;
            u.deposits + InHand(u.listener) == w.deposits + InHand(w.listener) + HeardBy(Receive(octets))
  {
    hide BreakPacket;
    assert w.deposits + [] + [] == w.deposits;
  }

  lemma {:induction false} RunHears(w: World, moves: seq<Move>, chaos: Chaos)
    requires Run(w, moves, chaos).Some? && !Run(w, moves, chaos).value.strayed
    ensures var u := Run(w, moves, chaos).value;
            u.deposits + InHand(u.listener) == w.deposits + InHand(w.listener) + Heard(moves)
    decreases |moves|
  {
    if moves != [] {
      var v := Step(w, moves[0], chaos).value;
      assert !v.strayed;
      hide Step, HeardBy;
      StepHears(w, moves[0], chaos);
      RunHears(v, moves[1..], chaos);
    }
  }

  /** The deposits, and the packet the listener may have in hand, are the packets received, in order. */
  lemma DepositsAreHeard(moves: seq<Move>, w: World, chaos: Chaos)
    requires Run(Initial(), moves, chaos) == Some(w) && !w.strayed
    ensures w.deposits + InHand(w.listener) == Heard(moves)
  {
    RunHears(Initial(), moves, chaos);
  }

  /* --- Neither thread waits for ever --- */

  /** Unless the listener waits for the socket or has gone, and the channel sleeps or has ended, some
      thread can take a step of its own: no deadlock over the mutex, in any run. */
  lemma NeverStuck(w: World, chaos: Chaos) returns (m: Move)
    requires Reachable(w, chaos) && !w.strayed
    requires !(w.listener in {Polling, Gone}) || !(w.channel in {Sleeping, Ended})
    ensures !m.Receive? && m != Stop && m != WakeUp && Step(w, m, chaos).Some?
  {
    ReachableInvariant(w, chaos);
    hide PacketDecision, BadAnswer, MayDecide;
    var theChannel := match w.channel
      case Top => Check
      case AtLock => Lock
      case Looking => Look
      case Woken => Relock
      case Unlocking => Unlock
      case _ => Act(Luck(0, 0, true));
    var theListener := match w.listener
      case WantsLock(_) => TakeLock
      case HasLock(_) => Store
      case Deposited => Release
      case OwesSignal => Signal
      case LastSignal => SignalAll
      case _ => ClearRunning;
    m := if w.owner == ByChannel || w.listener in {Polling, Gone} then theChannel else theListener;
  }

  /** A channel asleep over a full mailbox wakes by the listener's own remaining steps. */
  lemma OwedSignalComes(w: World, chaos: Chaos) returns (moves: seq<Move>)
    requires Reachable(w, chaos) && !w.strayed && w.channel == Sleeping && w.slot.Some?
    ensures (forall m | m in moves :: m == Release || m == Signal)
    ensures Run(w, moves, chaos).Some? && Run(w, moves, chaos).value.channel == Woken
  {
    ReachableInvariant(w, chaos);
    if w.listener == OwesSignal {
      moves := [Signal];
      assert moves[1..] == [];
    } else {
      moves := [Release, Signal];
      assert moves[1..] == [Signal] && moves[1..][1..] == [];
      var u := Step(w, Release, chaos).value;
      assert Run(u, [Signal], chaos) == Run(Step(u, Signal, chaos).value, [Signal][1..], chaos);
    }
  }
}
