/** The variables the two threads share (fuzzer/AMQP.c) and the code that runs on them while a
    thread holds the channel's mutex; each piece is one or two steps of the world they stand for. */
module Threads {
  import opened CText
  import opened Frames
  import opened Session
  import opened Mailbox

  class Shared {
    var currentState: State
    var waitingResponse: bool
    var isRunning: bool
    var channelPacket: Option<Packet>
    ghost var world: World

    ghost predicate Valid()
      reads this
    {
      && Invariant(world)
      && currentState == world.state && waitingResponse == world.waiting && isRunning == world.running
      && channelPacket == InMailbox(world)
    }

    constructor ()
      ensures Valid() && world == Initial()
    {
      currentState, waitingResponse, isRunning, channelPacket := NotConnected, false, true, None;
      world := Initial();
    }

    /** The listener, between lock and unlock: whatever is in the slot gives way to the new packet. */
    method Deposit(readPacket: Packet, ghost chaos: Chaos)
      requires Valid() && world.listener == HasLock(readPacket) && !world.strayed
      modifies this
      ensures Valid() && Step(old(world), Store, chaos) == Some(world)
      ensures channelPacket == Some(readPacket)
    {
      StoreKeeps(world, chaos);
      if channelPacket != None { channelPacket := None; }
      channelPacket := Some(readPacket);
      world := Step(world, Store, chaos).value;
    }

    /** The listener's last statement, outside the mutex. */
    method ClearIsRunning(ghost chaos: Chaos)
      requires Valid() && world.listener == ClearingRunning && !world.strayed
      modifies this
      ensures Valid() && Step(old(world), ClearRunning, chaos) == Some(world)
      ensures !isRunning && channelPacket == old(channelPacket)
      ensures currentState == old(currentState) && waitingResponse == old(waitingResponse)
    {
      StepKeeps(world, ClearRunning, chaos);
      isRunning := false;
      world := Step(world, ClearRunning, chaos).value;
    }

    /** The channel, from holding the mutex to releasing it: it goes to sleep on an empty slot while
        a response is expected, or decides on what is there, takes over the new state and empties
        the slot - unless the builder of its answer leaves the program's bounds first. */
    method Turn(chaos: Chaos, luck: Luck) returns (slept: bool, strayed: bool)
      requires Valid() && world.channel == Looking && !world.strayed
      modifies this
      ensures Valid() && strayed == world.strayed
      ensures slept ==> Step(old(world), Look, chaos) == Some(world)
      ensures !slept ==> Run(old(world), [Look, Act(luck)], chaos) == Some(world)
      ensures slept <==> old(channelPacket) == None && old(waitingResponse)
    {
      hide Invariant, Step, Acted, PacketDecision, Run, Accounted, BadAnswer;
      LookWorks(world, chaos);
      ghost var looked := Step(world, Look, chaos).value;
      StepKeeps(world, Look, chaos);
      var packet := channelPacket;
      if packet == None && waitingResponse {
        world := looked;
        return true, false;
      }
      slept := false;
      TwoSteps(world, Look, Act(luck), chaos);
      ActWorks(looked, luck, chaos);
      var crashed, nextState, response, sent := PacketDecider(packet, currentState, waitingResponse, chaos, luck,
          isRunning);
      world := Acted(looked, luck, chaos);
      strayed := BadAnswer(sent);
      if !strayed {
        currentState, waitingResponse := nextState, response;
        channelPacket := None;
      }
    }
  }

  /** The packet the slot stands for. */
  function InMailbox(w: World): Option<Packet>
    requires Accounted(w)
  {
    match w.slot case None => None case Some(i) => Some(w.deposits[i])
  }

  /** Looking into the mailbox: asleep with it empty, or deciding on what it holds. */
  lemma LookWorks(w: World, chaos: Chaos)
    requires Invariant(w) && w.channel == Looking && !w.strayed
    ensures Accounted(w) && Step(w, Look, chaos).Some?
    ensures var u := Step(w, Look, chaos).value;
            && Accounted(u) && InMailbox(u) == InMailbox(w)
            && u.state == w.state && u.waiting == w.waiting && u.running == w.running && !u.strayed
            && (InMailbox(w).Some? || !w.waiting ==> u.channel == Deciding(InMailbox(w)))
  {
  }

  lemma ActWorks(w: World, luck: Luck, chaos: Chaos)
    requires Invariant(w) && w.channel.Deciding? && !w.strayed
    ensures Step(w, Act(luck), chaos) == Some(Acted(w, luck, chaos))
    ensures Invariant(Acted(w, luck, chaos)) && Accounted(Acted(w, luck, chaos)) && Accounted(w)
    ensures var d, u := PacketDecision(w.channel.packet, w.state, w.waiting, chaos, luck, w.running),
                        Acted(w, luck, chaos);
            && d.Some? && u.running == w.running && (u.strayed <==> BadAnswer(d.value.sent))
            && (!u.strayed ==> InMailbox(u) == None && u.state == d.value.next && u.waiting == d.value.waiting)
            && (u.strayed ==> InMailbox(u) == InMailbox(w) && u.state == w.state && u.waiting == w.waiting)
  {
    hide PacketDecision, Accounted, BadAnswer;
    DecisionSound(w.channel.packet, w.state, w.waiting, chaos, luck, w.running);
    ActKeeps(w, luck, chaos);
  }

  lemma TwoSteps(w: World, m: Move, n: Move, chaos: Chaos)
    requires Step(w, m, chaos).Some?
    ensures Run(w, [m, n], chaos) == Step(Step(w, m, chaos).value, n, chaos)
  {
    hide Step;
    assert [m, n][1..] == [n] && [n][1..] == [];
    var u := Step(w, m, chaos).value;
    assert Run(w, [m, n], chaos) == Run(u, [n], chaos);
  }
}
