/** What an orderly fuzzer sends over a whole run (PACKET_CHAOS 0 and 1): the connection life cycle
    of section 2.2.4 of AMQP 0-9-1, as far as the state machine keeps to it. */
module Traces {
  import opened CText
  import opened Frames
  import opened Session
  import opened Mailbox

  /* --- The log of a run --- */

  /** An event is what packet_decider made of a sound state. */
  predicate EventSound(e: Event)
  {
    && MayDecide(e.packet, e.before, e.waiting)
    && (e.orderly ==>
          var d := OrderedDecision(e.packet, e.before, e.waiting);
          && d.Some? && e.sent == d.value.sent
          && e.after == if e.sent == Nothing || e.delivered then d.value.next else Closed)
  }

  /** The state before an event of a log. */
  function Before(log: seq<Event>, k: nat): State
    requires k <= |log|
  {
    if k == 0 then NotConnected else log[k - 1].after
  }

  predicate LogSound(log: seq<Event>, s: State)
  {
    && (forall i | 0 <= i < |log| :: EventSound(log[i]) && log[i].before == Before(log, i))
    && s == Before(log, |log|)
  }

  predicate AllOrderly(log: seq<Event>) { forall i | 0 <= i < |log| :: log[i].orderly }

  /** The packets decided on, in order. */
  function Taken(log: seq<Event>): seq<Packet>
  {
    if log == [] then []
    else
      var e := log[|log| - 1];
      Taken(log[..|log| - 1]) + match e.packet case None => [] case Some(p) => [p]
  }

  /** The deposits at the consumed indices. */
  function Picked(deposits: seq<Packet>, consumed: seq<nat>): seq<Packet>
    requires forall i | 0 <= i < |consumed| :: consumed[i] < |deposits|
  {
    seq(|consumed|, i requires 0 <= i < |consumed| => deposits[consumed[i]])
  }

  predicate Logged(w: World, chaos: Chaos)
  {
    && Invariant(w) && LogSound(w.log, w.state)
    && (chaos <= 1 ==> AllOrderly(w.log))
    && Taken(w.log) == Picked(w.deposits, w.consumed)
  }

  lemma EventOf(w: World, luck: Luck, chaos: Chaos)
    requires Invariant(w) && w.channel.Deciding? && !Acted(w, luck, chaos).strayed
    ensures var u := Acted(w, luck, chaos);
            && |u.log| == |w.log| + 1 && u.log[..|w.log|] == w.log
            && var e := u.log[|w.log|];
               EventSound(e) && e.before == w.state && e.after == u.state && e.packet == w.channel.packet
               && (chaos <= 1 ==> e.orderly)
  {
    DecisionSound(w.channel.packet, w.state, w.waiting, chaos, luck, w.running);
  }

  /** A decision consumes the deposit it decides on. */
  lemma ActConsumes(w: World, luck: Luck, chaos: Chaos)
    requires Invariant(w) && w.channel.Deciding? && !w.strayed && !Acted(w, luck, chaos).strayed
    ensures Invariant(Acted(w, luck, chaos))
    ensures var u := Acted(w, luck, chaos);
            && u.deposits == w.deposits
            && match w.channel.packet
               case None => u.consumed == w.consumed
               case Some(p) =>
                 && w.slot.Some? && u.consumed == w.consumed + [w.slot.value]
                 && w.slot.value < |w.deposits| && w.deposits[w.slot.value] == p
  {
    hide PacketDecision, MayDecide, Accounted, BadAnswer, Sound;
    ActKeeps(w, luck, chaos);
  }

  lemma PickedGrows(deposits: seq<Packet>, consumed: seq<nat>, last: nat)
    requires (forall i | 0 <= i < |consumed| :: consumed[i] < |deposits|) && last < |deposits|
    ensures Picked(deposits, consumed + [last]) == Picked(deposits, consumed) + [deposits[last]]
  {
  }

  lemma TakenGrows(more: seq<Event>, log: seq<Event>)
    requires |more| == |log| + 1 && more[..|log|] == log
    ensures Taken(more) == Taken(log) + match more[|log|].packet case None => [] case Some(p) => [p]
  {
  }

  lemma ActPicks(w: World, luck: Luck, chaos: Chaos)
    requires Invariant(w) && w.channel.Deciding? && !w.strayed && !Acted(w, luck, chaos).strayed
    requires Taken(w.log) == Picked(w.deposits, w.consumed)
    ensures var u := Acted(w, luck, chaos); Invariant(u) && Taken(u.log) == Picked(u.deposits, u.consumed)
  {
    hide Acted, EventSound, Received, NoLostWakeup, DecisionReady, ListenerReady, MutexHeld, Taken, Picked, Increasing;
    EventOf(w, luck, chaos);
    ActConsumes(w, luck, chaos);
    TakenGrows(Acted(w, luck, chaos).log, w.log);
    if w.channel.packet.Some? { PickedGrows(w.deposits, w.consumed, w.slot.value); }
  }

  lemma ActLogged(w: World, luck: Luck, chaos: Chaos)
    requires Logged(w, chaos) && w.channel.Deciding? && !w.strayed
    ensures Logged(Acted(w, luck, chaos), chaos)
  {
    if Acted(w, luck, chaos).strayed {
      StrayLogged(w, luck, chaos);
      return;
    }
    hide Invariant, EventSound, Acted, Taken, Picked;
    ActPicks(w, luck, chaos);
    EventOf(w, luck, chaos);
    var u := Acted(w, luck, chaos);
    LogExtends(w.log, w.state, u.log, u.state, chaos);
  }

  lemma StrayLogged(w: World, luck: Luck, chaos: Chaos)
    requires Logged(w, chaos) && w.channel.Deciding? && !w.strayed && Acted(w, luck, chaos).strayed
    ensures Logged(Acted(w, luck, chaos), chaos)
  {
    hide PacketDecision, BadAnswer, LogSound, AllOrderly, Taken, Accounted;
    ActKeeps(w, luck, chaos);
  }

  lemma LogExtends(log: seq<Event>, s: State, more: seq<Event>, t: State, chaos: Chaos)
    requires LogSound(log, s) && (chaos <= 1 ==> AllOrderly(log))
    requires |more| == |log| + 1 && more[..|log|] == log
    requires var e := more[|log|]; EventSound(e) && e.before == s && e.after == t && (chaos <= 1 ==> e.orderly)
    ensures LogSound(more, t) && (chaos <= 1 ==> AllOrderly(more))
  {
    hide EventSound;
    forall i | 0 <= i < |more| ensures EventSound(more[i]) && more[i].before == Before(more, i) {
      if i < |log| { assert more[i] == log[i]; }
    }
    assert forall i | 0 <= i < |log| :: more[i] == log[i];
  }

  lemma StepLogged(w: World, m: Move, chaos: Chaos)
    requires Logged(w, chaos) && Step(w, m, chaos).Some?
    ensures Logged(Step(w, m, chaos).value, chaos)
  {
    StepKeeps(w, m, chaos);
    if m.Act? {
      ActLogged(w, m.luck, chaos);
    } else {
      hide Invariant;
      StepElsewhere(w, m, chaos);
    }
  }

  /** Nothing but a decision touches log, state or consumption; deposits only grow. */
  lemma StepElsewhere(w: World, m: Move, chaos: Chaos)
    requires Step(w, m, chaos).Some? && !m.Act? && Accounted(w)
    ensures var u := Step(w, m, chaos).value;
            && u.log == w.log && u.state == w.state && u.consumed == w.consumed
            && |w.deposits| <= |u.deposits| && u.deposits[..|w.deposits|] == w.deposits
            && Picked(u.deposits, u.consumed) == Picked(w.deposits, w.consumed)
  {
    hide BadBuffer, BreakPacket, PacketDecision, Increasing, Received;
  }

  lemma {:induction false} RunLogged(w: World, moves: seq<Move>, chaos: Chaos)
    requires Logged(w, chaos) && Run(w, moves, chaos).Some?
    ensures Logged(Run(w, moves, chaos).value, chaos)
    decreases |moves|
  {
    if moves != [] {
      StepLogged(w, moves[0], chaos);
      RunLogged(Step(w, moves[0], chaos).value, moves[1..], chaos);
    }
  }

  lemma ReachableLogged(w: World, chaos: Chaos)
    requires Reachable(w, chaos)
    ensures Logged(w, chaos)
  {
    var moves: seq<Move> :| Run(Initial(), moves, chaos) == Some(w);
    RunLogged(Initial(), moves, chaos);
  }

  /** The packets the channel decided on are a subsequence, in order, of those deposited. */
  lemma TakenInOrder(w: World, chaos: Chaos)
    requires Reachable(w, chaos)
    ensures |Taken(w.log)| == |w.consumed|
    ensures forall i | 0 <= i < |w.consumed| :: w.consumed[i] < |w.deposits|
    ensures forall i | 0 <= i < |w.consumed| :: Taken(w.log)[i] == w.deposits[w.consumed[i]]
    ensures Increasing(w.consumed)
  {
    ReachableLogged(w, chaos);
  }

  /* --- Orderly traces --- */

  /** A Connection method with this id. */
  predicate IsMethod(p: Option<Packet>, methodId: nat)
  {
    Is(MethodOf(p), methodId)
  }

  ghost predicate OrderlyRun(w: World, chaos: Chaos) { Reachable(w, chaos) && chaos <= 1 }

  /** What an orderly decision can send and where it can lead, case by case. */
  predicate EventRules(e: Event)
  {
    && (e.before == NotConnected ==> if e.sent == Nothing then e.after == NotConnected else e.sent == SentHeader)
    && (e.sent == SentHeader ==> e.before == NotConnected)
    && (e.sent == SentStartOk <==> e.before != NotConnected && IsMethod(e.packet, 10))
    && (e.sent.SentTuneOk? <==> e.before != NotConnected && IsMethod(e.packet, 30))
    && (e.sent.SentTuneOk? ==> e.sent.tune == Some(e.packet.value.methodPayload.value.arguments))
    && (e.sent == SentCloseOk <==> e.before != NotConnected && IsMethod(e.packet, 50))
    && (e.sent == SentOpen ==> e.before == Tuned && e.packet == None)
    && (e.sent == SentClose ==> e.before == Connected && e.packet == None)
    && (e.after == Tuned ==> e.before == Tuned || (e.sent.SentTuneOk? && e.delivered))
    && (e.after == Connected ==> e.before == Connected || IsMethod(e.packet, 41) || IsMethod(e.packet, 20))
    && (e.after == Closed <==>
          (e.before != NotConnected && IsMethod(e.packet, 51)) || (e.sent != Nothing && !e.delivered))
    && e.before != Closed
  }

  lemma EventSorted(e: Event)
    requires EventSound(e) && e.orderly
    ensures EventRules(e)
  {
  }

  /** Every event's answer and the state it leads to, from its packet and the state before. */
  predicate EventSettled(e: Event)
  {
    && Answers(e.packet, e.before, e.sent)
    && (e.sent == Nothing ==> Leads(e.packet, e.before, e.after))
    && (e.sent != Nothing ==> e.after == if e.delivered then StateAfter(e.sent).0 else Closed)
  }

  lemma EventSettles(e: Event)
    requires EventSound(e) && e.orderly
    ensures EventSettled(e)
  {
  }

  /** The same of every event of a reachable log, and each starts where the last one ended. */
  lemma LogRules(w: World, chaos: Chaos)
    requires OrderlyRun(w, chaos)
    ensures forall i | 0 <= i < |w.log| :: EventRules(w.log[i]) && w.log[i].before == Before(w.log, i)
  {
    ReachableLogged(w, chaos);
    hide EventSound, EventRules, Invariant, Reachable;
    forall i | 0 <= i < |w.log| ensures EventRules(w.log[i]) && w.log[i].before == Before(w.log, i) {
      EventSorted(w.log[i]);
    }
  }

  /** A log read by rules alone. */
  predicate Ruled(log: seq<Event>)
  {
    forall i | 0 <= i < |log| :: EventRules(log[i]) && log[i].before == Before(log, i)
  }

  /** Until something is sent, nothing leads away from the initial state. */
  lemma {:induction false} SilentStart(log: seq<Event>, k: nat)
    requires Ruled(log) && k <= |log| && forall i | 0 <= i < k :: log[i].sent == Nothing
    ensures Before(log, k) == NotConnected
    decreases k
  {
    hide IsMethod;
    if k > 0 {
      SilentStart(log, k - 1);
      assert EventRules(log[k - 1]);
    }
  }

  /** The first thing sent is the protocol header. */
  lemma HeaderFirst(w: World, chaos: Chaos, k: nat)
    requires OrderlyRun(w, chaos)
    requires k < |w.log| && w.log[k].sent != Nothing && forall i | 0 <= i < k :: w.log[i].sent == Nothing
    ensures w.log[k].sent == SentHeader
  {
    hide OrderlyRun;
    LogRules(w, chaos);
    SilentStart(w.log, k);
    assert EventRules(w.log[k]);
  }

  /** Answers are sent in the very step that takes the question, and every question that does not
      find the connection in its initial state is answered. */
  lemma AnswersMatch(w: World, chaos: Chaos, k: nat)
    requires OrderlyRun(w, chaos) && k < |w.log|
    ensures var e := w.log[k]; var asked := e.before != NotConnected;
            && (e.sent == SentStartOk <==> asked && IsMethod(e.packet, 10))
            && (e.sent.SentTuneOk? <==> asked && IsMethod(e.packet, 30))
            && (e.sent.SentTuneOk? ==> e.sent.tune == Some(e.packet.value.methodPayload.value.arguments))
            && (e.sent == SentCloseOk <==> asked && IsMethod(e.packet, 50))
  {
    hide OrderlyRun, IsMethod;
    LogRules(w, chaos);
    assert EventRules(w.log[k]);
  }

  /** In orderly runs packet and state settle each step: the first event finds the initial state,
      each other one the state the last led to. */
  lemma StatesFollow(w: World, chaos: Chaos, k: nat)
    requires OrderlyRun(w, chaos) && k < |w.log|
    ensures var e := w.log[k];
            && e.before == (if k == 0 then NotConnected else w.log[k - 1].after)
            && Answers(e.packet, e.before, e.sent)
            && (e.sent == Nothing ==> Leads(e.packet, e.before, e.after))
            && (e.sent != Nothing ==> e.after == if e.delivered then StateAfter(e.sent).0 else Closed)
    ensures w.state == if w.log == [] then NotConnected else w.log[|w.log| - 1].after
  {
    ReachableLogged(w, chaos);
    hide EventSound, EventSettled, Invariant, Reachable;
    EventSettles(w.log[k]);
    SettledParts(w.log[k]);
  }

  lemma SettledParts(e: Event)
    requires EventSettled(e)
    ensures Answers(e.packet, e.before, e.sent)
    ensures e.sent == Nothing ==> Leads(e.packet, e.before, e.after)
    ensures e.sent != Nothing ==> e.after == if e.delivered then StateAfter(e.sent).0 else Closed
  {
  }

  /** Open-Ok, or Secure, connects whatever state but the initial one it finds. */
  lemma OpenOkConnects(w: World, chaos: Chaos, k: nat)
    requires OrderlyRun(w, chaos) && k < |w.log| && w.log[k].before != NotConnected
    ensures IsMethod(w.log[k].packet, 41) || IsMethod(w.log[k].packet, 20) ==>
              w.log[k].after == Connected && w.log[k].sent == Nothing
  {
    hide OrderlyRun;
    StatesFollow(w, chaos, k);
  }

  lemma TunedBefore(log: seq<Event>, k: nat)
    requires Ruled(log) && k < |log| && log[k].after == Tuned
    ensures (log[k].sent.SentTuneOk? && log[k].delivered) || (k > 0 && log[k - 1].after == Tuned)
  {
    hide IsMethod;
    assert EventRules(log[k]) && log[k].before == Before(log, k);
  }

  /** In the tuned state a run is there since a Tune-Ok was delivered. */
  lemma {:induction false} TunedSince(log: seq<Event>, k: nat) returns (j: nat)
    requires Ruled(log) && k < |log| && log[k].after == Tuned
    ensures j <= k && log[j].sent.SentTuneOk? && log[j].delivered && forall i | j <= i <= k :: log[i].after == Tuned
    decreases k
  {
    hide Ruled;
    TunedBefore(log, k);
    if log[k].sent.SentTuneOk? && log[k].delivered { j := k; } else { j := TunedSince(log, k - 1); }
  }

  lemma ConnectedBefore(log: seq<Event>, k: nat)
    requires Ruled(log) && k < |log| && log[k].after == Connected
    ensures IsMethod(log[k].packet, 41) || IsMethod(log[k].packet, 20) || (k > 0 && log[k - 1].after == Connected)
  {
    hide IsMethod;
    assert EventRules(log[k]) && log[k].before == Before(log, k);
  }

  lemma {:induction false} ConnectedSince(log: seq<Event>, k: nat) returns (j: nat)
    requires Ruled(log) && k < |log| && log[k].after == Connected
    ensures j <= k && (IsMethod(log[j].packet, 41) || IsMethod(log[j].packet, 20))
    ensures forall i | j <= i <= k :: log[i].after == Connected
    decreases k
  {
    hide Ruled, IsMethod;
    ConnectedBefore(log, k);
    if IsMethod(log[k].packet, 41) || IsMethod(log[k].packet, 20) { j := k; } else { j := ConnectedSince(log, k - 1); }
  }

  /** Every Open follows a delivered Tune-Ok, with the connection tuned ever since. */
  lemma OpenFollowsTuneOk(w: World, chaos: Chaos, k: nat) returns (j: nat)
    requires OrderlyRun(w, chaos) && k < |w.log| && w.log[k].sent == SentOpen
    ensures w.log[k].packet == None
    ensures j < k && w.log[j].sent.SentTuneOk? && w.log[j].delivered
    ensures forall i | j <= i < k :: w.log[i].after == Tuned
  {
    hide OrderlyRun, IsMethod;
    LogRules(w, chaos);
    assert EventRules(w.log[k]) && w.log[k].before == Before(w.log, k);
    j := TunedSince(w.log, k - 1);
  }

  /** Every Close follows a received Open-Ok (or Secure), with the connection up ever since. */
  lemma CloseFollowsOpenOk(w: World, chaos: Chaos, k: nat) returns (j: nat)
    requires OrderlyRun(w, chaos) && k < |w.log| && w.log[k].sent == SentClose
    ensures w.log[k].packet == None
    ensures j < k && (IsMethod(w.log[j].packet, 41) || IsMethod(w.log[j].packet, 20))
    ensures forall i | j <= i < k :: w.log[i].after == Connected
  {
    hide OrderlyRun, IsMethod;
    LogRules(w, chaos);
    assert EventRules(w.log[k]) && w.log[k].before == Before(w.log, k);
    j := ConnectedSince(w.log, k - 1);
  }

  /** The connection closes on Close-Ok, or on a packet that could not be delivered, and on nothing
      else; and the decision that closes it is the last. */
  lemma ClosedOnlyBy(w: World, chaos: Chaos, k: nat)
    requires OrderlyRun(w, chaos) && k < |w.log|
    ensures var e := w.log[k];
            && (e.after == Closed <==>
                  (e.before != NotConnected && IsMethod(e.packet, 51)) || (e.sent != Nothing && !e.delivered))
            && (e.after == Closed ==> k + 1 == |w.log|)
  {
    hide OrderlyRun, IsMethod;
    LogRules(w, chaos);
    assert EventRules(w.log[k]);
    assert k + 1 < |w.log| ==> EventRules(w.log[k + 1]) && w.log[k + 1].before == Before(w.log, k + 1);
  }
}
